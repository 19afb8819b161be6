/**
 Index instructions: each does what the instruction without the prefix does when the index register, or the
 address it points to, is in the place of HL.
 */
module Z80Index {
  import opened Machine
  import opened Z80Alu
  import opened Z80
  import opened Z80Exec
  import opened Z80Ops

  // ---- HL and the index register change places -----------------------------------------------------------------

  function Swap(c: Cpu, reg: IndexReg): Cpu { SetIndex(SetHl(c, GetIndex(c, reg)), reg, Hl(c)) }

  function Swapped(m: Mach, reg: IndexReg): Mach { m.(cpu := Swap(m.cpu, reg)) }

  lemma Halves(v: u16)
    ensures Lo(v) as int + 256 * (Hi(v) as int) == v
  {
  }

  lemma OfHalves(h: byte, l: byte)
    ensures Hi(l as int + 256 * (h as int)) == h && Lo(l as int + 256 * (h as int)) == l
  {
  }

  /** What stands where after a swap. */
  lemma SwapReads(c: Cpu, reg: IndexReg, s: Cpu)
    requires s == Swap(c, reg)
    ensures Hl(s) == GetIndex(c, reg) && GetIndex(s, reg) == Hl(c)
    ensures forall r :: 0 <= r < 8 ==> s.regs[r] == GetXR(c, reg, r)
  {
    Halves(GetIndex(c, reg));
  }

  lemma HlBack(c: Cpu, v: u16)
    ensures Same(SetHl(SetHl(c, v), Hl(c)), c)
  {
    OfHalves(c.regs[RH], c.regs[RL]);
    assert SetHl(SetHl(c, v), Hl(c)).regs == c.regs;
  }

  lemma SwapTwice(c: Cpu, reg: IndexReg)
    ensures Same(Swap(Swap(c, reg), reg), c)
  {
    SwapReads(c, reg, Swap(c, reg));
    HlBack(c, GetIndex(c, reg));
  }

  /** A register set while swapped is the index register's half, or itself. */
  lemma SwapSets(c: Cpu, reg: IndexReg, r: int, v: byte, s: Cpu)
    requires s == Swap(c, reg) && 0 <= r < 8
    ensures Same(Swap(s.(regs := s.regs[r := v]), reg), SetXR(c, reg, r, v))
  {
    var t := s.(regs := s.regs[r := v]);
    SwapReads(c, reg, s);
    OfHalves(c.regs[RH], c.regs[RL]);
    assert Swap(t, reg).regs == SetXR(c, reg, r, v).regs;
    assert GetIndex(Swap(t, reg), reg) == GetIndex(SetXR(c, reg, r, v), reg);
  }

  lemma SwapPuts(c: Cpu, reg: IndexReg, v: u16, s: Cpu)
    requires s == Swap(c, reg)
    ensures Same(Swap(SetHl(s, v), reg), SetIndex(c, reg, v))
  {
    var t := SetHl(s, v);
    SwapReads(c, reg, s);
    Halves(v);
    OfHalves(c.regs[RH], c.regs[RL]);
    assert Swap(t, reg).regs == c.regs;
  }

  // ---- the instructions on registers ------------------------------------------------------------------------------

  /** The instruction without the prefix, for those that do not point into memory. */
  function Bare(x: IndexOp): Instr {
    match x
    case XAdd(p) => AddHl(p)
    case XLd(nn) => LdPair(2, nn)
    case XSt(nn) => StHlMem(nn)
    case XLdMem(nn) => LdHlMem(nn)
    case XInc => IncPair(2)
    case XDec => DecPair(2)
    case XIncR(r) => Inc(r)
    case XDecR(r) => Dec(r)
    case XLdImm(r, n) => LdImm(r, n)
    case XLdRR(r, s) => Ld(r, s)
    case XAlu(op, s) => Alu(op, s)
    case XPop => Pop(2)
    case XPush => Push(2)
    case XJp => JpHl
    case XLdSp => LdSpHl
    case XExSp => ExSpHl
    case _ => Nop
  }

  predicate IsReg(r: int) { 0 <= r < 8 && r != 6 }

  predicate OnRegisters(x: IndexOp) {
    match x
    case XAdd(_) | XLd(_) | XSt(_) | XLdMem(_) | XInc | XDec | XPop | XPush | XJp | XLdSp | XExSp => true
    case XIncR(r) => IsReg(r)
    case XDecR(r) => IsReg(r)
    case XLdImm(r, _) => IsReg(r)
    case XLdRR(r, s) => IsReg(r) && IsReg(s)
    case XAlu(_, s) => IsReg(s)
    case _ => false
  }

  lemma LoadsPlainly(m: Mach, i: Instr)
    requires i.LdPair? || i.LdHlMem? || i.StHlMem? || i.LdImm? || i.Ld? || i.Pop? || i.Push? || i.LdSpHl? || i.ExSpHl?
    ensures Same(Exec(m, i), ExecLoad(m, i))
  {
  }

  lemma Counts(i: Instr)
    requires i.AddHl? || i.IncPair? || i.DecPair? || i.Inc? || i.Dec? || i.Alu?
    ensures IsArith(i) && !IsLoad(i) && !i.Block? && !i.Cb? && !i.Index?
  {
  }

  lemma Computes(m: Mach, i: Instr)
    requires IsArith(i) && !IsLoad(i) && !i.Block? && !i.Cb? && !i.Index?
    ensures Same(Exec(m, i), ExecArith(m, i))
  {
  }

  lemma CountsPlainly(m: Mach, i: Instr)
    requires i.AddHl? || i.IncPair? || i.DecPair? || i.Inc? || i.Dec? || i.Alu?
    ensures Same(Exec(m, i), ExecArith(m, i))
  {
    Counts(i);
    Computes(m, i);
  }

  /** Everything but the registers and the index register is as it was, so it may change on either side. */
  lemma SwapAside(c: Cpu, reg: IndexReg, f: Flags, sp: u16, pc: u16, wz: u16)
    ensures Same(Swap(c.(f := f, sp := sp, pc := pc, wz := wz), reg),
                 Swap(c, reg).(f := f, sp := sp, pc := pc, wz := wz))
  {
  }

  /** The two sides of an instruction that gives the index register a new value, and perhaps changes memory. */
  lemma PutMirrors(m: Mach, reg: IndexReg, s: Mach, c: Cpu, v: u16, mem: Mem, e: Mach, r: Mach)
    requires s == Swapped(m, reg)
    requires Same(e, s.(cpu := SetHl(Swap(c, reg), v), mem := mem))
    requires Same(r, m.(cpu := SetIndex(c, reg, v), mem := mem))
    ensures Same(Swapped(e, reg), r)
  {
    SwapPuts(c, reg, v, Swap(c, reg));
  }

  lemma LoadPairMirrors(m: Mach, reg: IndexReg, x: IndexOp, s: Mach, v: u16)
    requires s == Swapped(m, reg)
    requires match x case XLd(nn) => v == nn case XLdMem(nn) => v == MRead16(m.mem, nn) case _ => false
    ensures Same(Swapped(Exec(s, Bare(x)), reg), ExecIndex(m, reg, x))
  {
    LoadsPlainly(s, Bare(x));
    PutMirrors(m, reg, s, m.cpu, v, m.mem, Exec(s, Bare(x)), ExecIndex(m, reg, x));
  }

  lemma CountPairMirrors(m: Mach, reg: IndexReg, x: IndexOp, s: Mach, v: u16)
    requires s == Swapped(m, reg) && (x.XInc? || x.XDec?)
    requires v == Wrap(GetIndex(m.cpu, reg) + if x.XInc? then 1 else -1)
    ensures Same(Swapped(Exec(s, Bare(x)), reg), ExecIndex(m, reg, x))
  {
    SwapReads(m.cpu, reg, s.cpu);
    CountsPlainly(s, Bare(x));
    PutMirrors(m, reg, s, m.cpu, v, m.mem, Exec(s, Bare(x)), ExecIndex(m, reg, x));
  }

  lemma SumOfHl(s: Mach, p: int, v: u16, f: Flags)
    requires Same(Add16(s.cpu.f, Hl(s.cpu), Get1(s.cpu, p)), (v, f))
    ensures Same(Exec(s, AddHl(p)), s.(cpu := SetHl(s.cpu.(f := f), v)))
  {
    CountsPlainly(s, AddHl(p));
  }

  lemma SumMirrors(m: Mach, reg: IndexReg, x: IndexOp, s: Mach, v: u16, f: Flags)
    requires s == Swapped(m, reg) && x.XAdd?
    requires var i := GetIndex(m.cpu, reg); Same(Add16(m.cpu.f, i, if x.p == 2 then i else Get1(m.cpu, x.p)), (v, f))
    ensures Same(Swapped(Exec(s, Bare(x)), reg), ExecIndex(m, reg, x))
  {
    var c, t := m.cpu, s.cpu;
    SwapReads(c, reg, t);
    SwapAside(c, reg, f, c.sp, c.pc, c.wz);
    assert Get1(t, x.p) == if x.p == 2 then GetIndex(c, reg) else Get1(c, x.p);
    SumOfHl(s, x.p, v, f);
    PutMirrors(m, reg, s, c.(f := f), v, m.mem, Exec(s, Bare(x)), ExecIndex(m, reg, x));
  }

  lemma PopToHl(s: Mach)
    ensures Same(Exec(s, Pop(2)), s.(cpu := SetHl(s.cpu.(sp := Wrap(s.cpu.sp + 2)), MRead16(s.mem, s.cpu.sp))))
  {
    LoadsPlainly(s, Pop(2));
  }

  lemma PopToIndex(m: Mach, reg: IndexReg)
    ensures Same(ExecIndex(m, reg, XPop),
                 m.(cpu := SetIndex(m.cpu.(sp := Wrap(m.cpu.sp + 2)), reg, MRead16(m.mem, m.cpu.sp))))
  {
  }

  lemma PopSides(m: Mach, reg: IndexReg, s: Mach, sp: u16, v: u16, e: Mach, r: Mach)
    requires s == Swapped(m, reg) && Same(e, s.(cpu := SetHl(s.cpu.(sp := sp), v)))
    requires Same(r, m.(cpu := SetIndex(m.cpu.(sp := sp), reg, v)))
    ensures Same(Swapped(e, reg), r)
  {
    SwapAside(m.cpu, reg, m.cpu.f, sp, m.cpu.pc, m.cpu.wz);
    PutMirrors(m, reg, s, m.cpu.(sp := sp), v, m.mem, e, r);
  }

  lemma PopMirrors(m: Mach, reg: IndexReg, s: Mach)
    requires s == Swapped(m, reg)
    ensures Same(Swapped(Exec(s, Pop(2)), reg), ExecIndex(m, reg, XPop))
  {
    PopToHl(s);
    PopToIndex(m, reg);
    PopSides(m, reg, s, Wrap(m.cpu.sp + 2), MRead16(m.mem, m.cpu.sp), Exec(s, Pop(2)), ExecIndex(m, reg, XPop));
  }

  lemma ExchangeWithHl(s: Mach, i: u16)
    requires i == Hl(s.cpu)
    ensures Same(Exec(s, ExSpHl), s.(cpu := SetHl(s.cpu.(wz := i), MRead16(s.mem, s.cpu.sp)),
                                     mem := MWrite16(s.mem, s.rom, s.cpu.sp, i)))
  {
    LoadsPlainly(s, ExSpHl);
  }

  lemma ExchangeWithIndex(m: Mach, reg: IndexReg, i: u16)
    requires i == GetIndex(m.cpu, reg)
    ensures Same(ExecIndex(m, reg, XExSp), m.(cpu := SetIndex(m.cpu.(wz := i), reg, MRead16(m.mem, m.cpu.sp)),
                                              mem := MWrite16(m.mem, m.rom, m.cpu.sp, i)))
  {
  }

  lemma ExchangeSides(m: Mach, reg: IndexReg, s: Mach, v: u16, i: u16, mem: Mem, e: Mach, r: Mach)
    requires s == Swapped(m, reg) && Same(e, s.(cpu := SetHl(s.cpu.(wz := i), v), mem := mem))
    requires Same(r, m.(cpu := SetIndex(m.cpu.(wz := i), reg, v), mem := mem))
    ensures Same(Swapped(e, reg), r)
  {
    SwapAside(m.cpu, reg, m.cpu.f, m.cpu.sp, m.cpu.pc, i);
    PutMirrors(m, reg, s, m.cpu.(wz := i), v, mem, e, r);
  }

  lemma ExchangeMirrors(m: Mach, reg: IndexReg, s: Mach, i: u16)
    requires s == Swapped(m, reg) && i == GetIndex(m.cpu, reg) == Hl(s.cpu)
    ensures Same(Swapped(Exec(s, ExSpHl), reg), ExecIndex(m, reg, XExSp))
  {
    ExchangeWithHl(s, i);
    ExchangeWithIndex(m, reg, i);
    ExchangeSides(m, reg, s, MRead16(m.mem, m.cpu.sp), i, MWrite16(m.mem, m.rom, m.cpu.sp, i),
                  Exec(s, ExSpHl), ExecIndex(m, reg, XExSp));
  }

  /** The two sides of an instruction that takes its value elsewhere. */
  lemma UseMirrors(m: Mach, reg: IndexReg, s: Mach, sp: u16, pc: u16, mem: Mem, e: Mach, r: Mach)
    requires s == Swapped(m, reg) && Same(e, s.(cpu := s.cpu.(sp := sp, pc := pc), mem := mem))
    requires Same(r, m.(cpu := m.cpu.(sp := sp, pc := pc), mem := mem))
    ensures Same(Swapped(e, reg), r)
  {
    SwapTwice(m.cpu, reg);
    SwapAside(s.cpu, reg, s.cpu.f, sp, pc, s.cpu.wz);
  }

  lemma StoreMirrors(m: Mach, reg: IndexReg, nn: u16, s: Mach, i: u16)
    requires s == Swapped(m, reg) && i == GetIndex(m.cpu, reg) == Hl(s.cpu)
    ensures Same(Swapped(Exec(s, StHlMem(nn)), reg), ExecIndex(m, reg, XSt(nn)))
  {
    LoadsPlainly(s, StHlMem(nn));
    UseMirrors(m, reg, s, m.cpu.sp, m.cpu.pc, MWrite16(m.mem, m.rom, nn, i),
               Exec(s, StHlMem(nn)), ExecIndex(m, reg, XSt(nn)));
  }

  lemma PushOfHl(s: Mach, i: u16, sp: u16)
    requires i == Hl(s.cpu) && sp == Wrap(s.cpu.sp - 2)
    ensures Same(Exec(s, Push(2)), s.(cpu := s.cpu.(sp := sp, pc := s.cpu.pc), mem := MWrite16(s.mem, s.rom, sp, i)))
  {
    LoadsPlainly(s, Push(2));
  }

  lemma PushOfIndex(m: Mach, reg: IndexReg, i: u16, sp: u16)
    requires i == GetIndex(m.cpu, reg) && sp == Wrap(m.cpu.sp - 2)
    ensures Same(ExecIndex(m, reg, XPush),
                 m.(cpu := m.cpu.(sp := sp, pc := m.cpu.pc), mem := MWrite16(m.mem, m.rom, sp, i)))
  {
  }

  lemma PushMirrors(m: Mach, reg: IndexReg, s: Mach, i: u16, sp: u16)
    requires s == Swapped(m, reg) && i == GetIndex(m.cpu, reg) == Hl(s.cpu) && sp == Wrap(m.cpu.sp - 2)
    ensures Same(Swapped(Exec(s, Push(2)), reg), ExecIndex(m, reg, XPush))
  {
    PushOfHl(s, i, sp);
    PushOfIndex(m, reg, i, sp);
    UseMirrors(m, reg, s, sp, m.cpu.pc, MWrite16(m.mem, m.rom, sp, i), Exec(s, Push(2)), ExecIndex(m, reg, XPush));
  }

  lemma JumpMirrors(m: Mach, reg: IndexReg, s: Mach, i: u16)
    requires s == Swapped(m, reg) && i == GetIndex(m.cpu, reg) == Hl(s.cpu)
    ensures Same(Swapped(Exec(s, JpHl), reg), ExecIndex(m, reg, XJp))
  {
    UseMirrors(m, reg, s, m.cpu.sp, i, m.mem, Exec(s, JpHl), ExecIndex(m, reg, XJp));
  }

  lemma LdSpMirrors(m: Mach, reg: IndexReg, s: Mach, i: u16)
    requires s == Swapped(m, reg) && i == GetIndex(m.cpu, reg) == Hl(s.cpu)
    ensures Same(Swapped(Exec(s, LdSpHl), reg), ExecIndex(m, reg, XLdSp))
  {
    LoadsPlainly(s, LdSpHl);
    UseMirrors(m, reg, s, i, m.cpu.pc, m.mem, Exec(s, LdSpHl), ExecIndex(m, reg, XLdSp));
  }

  /** Instructions on one register give it the value `v` and the flags `f`. */
  lemma RegisterMirrors(m: Mach, reg: IndexReg, x: IndexOp, s: Mach, r: int, v: byte, f: Flags)
    requires s == Swapped(m, reg) && IsReg(r)
    requires Same(Exec(s, Bare(x)), SetR(s.(cpu := s.cpu.(f := f)), r, v))
    requires Same(ExecIndex(m, reg, x), m.(cpu := SetXR(m.cpu.(f := f), reg, r, v)))
    ensures Same(Swapped(Exec(s, Bare(x)), reg), ExecIndex(m, reg, x))
  {
    var c, t := m.cpu, s.cpu;
    SwapAside(c, reg, f, c.sp, c.pc, c.wz);
    SwapSets(c.(f := f), reg, r, v, t.(f := f));
  }

  lemma CountMirrors(m: Mach, reg: IndexReg, x: IndexOp, s: Mach)
    requires s == Swapped(m, reg) && OnRegisters(x) && (x.XIncR? || x.XDecR?)
    ensures Same(Swapped(Exec(s, Bare(x)), reg), ExecIndex(m, reg, x))
  {
    var c := m.cpu;
    SwapReads(c, reg, s.cpu);
    CountsPlainly(s, Bare(x));
    var (v, f) := if x.XIncR? then Inc8(c.f, GetXR(c, reg, x.r)) else Dec8(c.f, GetXR(c, reg, x.r));
    RegisterMirrors(m, reg, x, s, x.r, v, f);
  }

  lemma LoadMirrors(m: Mach, reg: IndexReg, x: IndexOp, s: Mach)
    requires s == Swapped(m, reg) && OnRegisters(x) && (x.XLdImm? || x.XLdRR?)
    ensures Same(Swapped(Exec(s, Bare(x)), reg), ExecIndex(m, reg, x))
  {
    SwapReads(m.cpu, reg, s.cpu);
    LoadsPlainly(s, Bare(x));
    RegisterMirrors(m, reg, x, s, x.r, if x.XLdImm? then x.n else GetXR(m.cpu, reg, x.s), m.cpu.f);
  }

  lemma AluMirrors(m: Mach, reg: IndexReg, x: IndexOp, s: Mach)
    requires s == Swapped(m, reg) && OnRegisters(x) && x.XAlu?
    ensures Same(Swapped(Exec(s, Bare(x)), reg), ExecIndex(m, reg, x))
  {
    var c := m.cpu;
    SwapReads(c, reg, s.cpu);
    CountsPlainly(s, Bare(x));
    var (v, f) := AluResult(c.f, x.op, c.regs[RA], GetXR(c, reg, x.s));
    RegisterMirrors(m, reg, x, s, RA, v, f);
  }

  /** Main result: an index instruction is the plain one between two exchanges of HL and the index register. */
  lemma IndexMirrors(m: Mach, reg: IndexReg, x: IndexOp)
    requires OnRegisters(x)
    ensures Same(ExecIndex(m, reg, x), Swapped(Exec(Swapped(m, reg), Bare(x)), reg))
  {
    var s, i := Swapped(m, reg), GetIndex(m.cpu, reg);
    SwapReads(m.cpu, reg, s.cpu);
    match x
    case XAdd(p) =>
      var (v, f) := Add16(m.cpu.f, i, if p == 2 then i else Get1(m.cpu, p));
      SumMirrors(m, reg, x, s, v, f);
    case XLd(nn) => LoadPairMirrors(m, reg, x, s, nn);
    case XLdMem(nn) => LoadPairMirrors(m, reg, x, s, MRead16(m.mem, nn));
    case XInc => CountPairMirrors(m, reg, x, s, Wrap(i + 1));
    case XDec => CountPairMirrors(m, reg, x, s, Wrap(i - 1));
    case XPop => PopMirrors(m, reg, s);
    case XExSp => ExchangeMirrors(m, reg, s, i);
    case XSt(nn) => StoreMirrors(m, reg, nn, s, i);
    case XPush => PushMirrors(m, reg, s, i, Wrap(m.cpu.sp - 2));
    case XJp => JumpMirrors(m, reg, s, i);
    case XLdSp => LdSpMirrors(m, reg, s, i);
    case XIncR(_) | XDecR(_) => CountMirrors(m, reg, x, s);
    case XLdImm(_, _) | XLdRR(_, _) => LoadMirrors(m, reg, x, s);
    case XAlu(_, _) => AluMirrors(m, reg, x, s);
  }

  // ---- the instructions on memory -----------------------------------------------------------------------------------

  /** The instruction on the byte at HL. */
  function Pointed(x: IndexOp): Instr {
    match x
    case XIncM(_) => Inc(6)
    case XDecM(_) => Dec(6)
    case XLdMImm(_, n) => LdImm(6, n)
    case XStR(_, r) => Ld(6, r)
    case XLdR(r, _) => Ld(r, 6)
    case XAluM(op, _) => Alu(op, 6)
    case _ => Nop
  }

  predicate OnMemory(x: IndexOp) {
    match x
    case XIncM(_) | XDecM(_) | XLdMImm(_, _) | XAluM(_, _) => true
    case XStR(_, r) => IsReg(r) && r != RH && r != RL
    case XLdR(r, _) => IsReg(r) && r != RH && r != RL
    case _ => false
  }

  function Displacement(x: IndexOp): byte {
    match x
    case XIncM(d) => d
    case XDecM(d) => d
    case XLdMImm(d, _) => d
    case XStR(d, _) => d
    case XLdR(_, d) => d
    case XAluM(_, d) => d
    case XCb(d, _) => d
    case _ => 0
  }

  /** Where such an instruction points to. */
  function Address(c: Cpu, reg: IndexReg, x: IndexOp): u16 { Wrap(GetIndex(c, reg) + Disp(Displacement(x))) }

  function WithHl(m: Mach, v: u16): Mach { m.(cpu := SetHl(m.cpu, v)) }

  lemma HlIs(c: Cpu, v: u16)
    ensures Hl(SetHl(c, v)) == v
  {
    Halves(v);
  }

  lemma RegisterAside(c: Cpu, v: u16, r: int, b: byte)
    requires IsReg(r) && r != RH && r != RL
    ensures var t := SetHl(c, v);
            t.regs[r] == c.regs[r] && Same(SetHl(t.(regs := t.regs[r := b]), Hl(c)), c.(regs := c.regs[r := b]))
  {
    var t := SetHl(c, v);
    OfHalves(c.regs[RH], c.regs[RL]);
    assert SetHl(t.(regs := t.regs[r := b]), Hl(c)).regs == c.regs[r := b];
  }

  /** The two sides of an instruction that changes the byte at `a`, and perhaps the flags. */
  lemma ByteSides(m: Mach, a: u16, v: byte, f: Flags, e: Mach, r: Mach)
    requires Same(e, SetMem8(m.(cpu := SetHl(m.cpu, a).(f := f)), a, v))
    requires Same(r, SetMem8(m.(cpu := m.cpu.(f := f)), a, v))
    ensures Same(r, WithHl(e, Hl(m.cpu)))
  {
    HlBack(m.cpu.(f := f), a);
  }

  lemma CountOfByte(s: Mach, a: u16, i: Instr, v: byte, f: Flags)
    requires i == Inc(6) || i == Dec(6)
    requires a == Hl(s.cpu)
    requires var b := MRead8(s.mem, a); Same(if i.Inc? then Inc8(s.cpu.f, b) else Dec8(s.cpu.f, b), (v, f))
    ensures Same(Exec(s, i), SetMem8(s.(cpu := s.cpu.(f := f)), a, v))
  {
    CountsPlainly(s, i);
  }

  lemma CountAtIndex(m: Mach, reg: IndexReg, x: IndexOp, a: u16, v: byte, f: Flags)
    requires (x.XIncM? || x.XDecM?) && a == Address(m.cpu, reg, x)
    requires var b := MRead8(m.mem, a); Same(if x.XIncM? then Inc8(m.cpu.f, b) else Dec8(m.cpu.f, b), (v, f))
    ensures Same(ExecIndex(m, reg, x), SetMem8(m.(cpu := m.cpu.(f := f)), a, v))
  {
  }

  lemma PointsToCount(m: Mach, reg: IndexReg, x: IndexOp, a: u16, v: byte, f: Flags)
    requires (x.XIncM? || x.XDecM?) && a == Address(m.cpu, reg, x)
    requires var b := MRead8(m.mem, a); Same(if x.XIncM? then Inc8(m.cpu.f, b) else Dec8(m.cpu.f, b), (v, f))
    ensures Same(ExecIndex(m, reg, x), WithHl(Exec(WithHl(m, a), Pointed(x)), Hl(m.cpu)))
  {
    HlIs(m.cpu, a);
    CountOfByte(WithHl(m, a), a, Pointed(x), v, f);
    CountAtIndex(m, reg, x, a, v, f);
    ByteSides(m, a, v, f, Exec(WithHl(m, a), Pointed(x)), ExecIndex(m, reg, x));
  }

  lemma PointsToByte(m: Mach, reg: IndexReg, x: IndexOp, a: u16)
    requires x.XLdMImm? && a == Address(m.cpu, reg, x)
    ensures Same(ExecIndex(m, reg, x), WithHl(Exec(WithHl(m, a), Pointed(x)), Hl(m.cpu)))
  {
    HlIs(m.cpu, a);
    LoadsPlainly(WithHl(m, a), Pointed(x));
    ByteSides(m, a, x.n, m.cpu.f, Exec(WithHl(m, a), Pointed(x)), ExecIndex(m, reg, x));
  }

  lemma PointsForRegister(m: Mach, reg: IndexReg, x: IndexOp, a: u16)
    requires (x.XStR? || x.XLdR?) && OnMemory(x) && a == Address(m.cpu, reg, x)
    ensures Same(ExecIndex(m, reg, x), WithHl(Exec(WithHl(m, a), Pointed(x)), Hl(m.cpu)))
  {
    HlIs(m.cpu, a);
    HlBack(m.cpu, a);
    LoadsPlainly(WithHl(m, a), Pointed(x));
    RegisterAside(m.cpu, a, x.r, MRead8(m.mem, a));
  }

  lemma AluOnByte(s: Mach, op: int, v: byte, f: Flags)
    requires Same(AluResult(s.cpu.f, op, s.cpu.regs[RA], MRead8(s.mem, Hl(s.cpu))), (v, f))
    ensures Same(Exec(s, Alu(op, 6)), s.(cpu := SetA(s.cpu, v).(f := f)))
  {
    CountsPlainly(s, Alu(op, 6));
  }

  lemma AluSides(m: Mach, a: u16, v: byte, f: Flags, e: Mach, r: Mach)
    requires Same(e, m.(cpu := SetA(SetHl(m.cpu, a), v).(f := f))) && Same(r, m.(cpu := SetA(m.cpu, v).(f := f)))
    ensures Same(r, WithHl(e, Hl(m.cpu)))
  {
    RegisterAside(m.cpu.(f := f), a, RA, v);
  }

  lemma AluAtIndex(m: Mach, reg: IndexReg, x: IndexOp, a: u16, v: byte, f: Flags)
    requires x.XAluM? && a == Address(m.cpu, reg, x)
    requires Same(AluResult(m.cpu.f, x.op, m.cpu.regs[RA], MRead8(m.mem, a)), (v, f))
    ensures Same(ExecIndex(m, reg, x), m.(cpu := SetA(m.cpu, v).(f := f)))
  {
  }

  lemma PointsForAlu(m: Mach, reg: IndexReg, x: IndexOp, a: u16, v: byte, f: Flags)
    requires x.XAluM? && a == Address(m.cpu, reg, x)
    requires Same(AluResult(m.cpu.f, x.op, m.cpu.regs[RA], MRead8(m.mem, a)), (v, f))
    ensures Same(ExecIndex(m, reg, x), WithHl(Exec(WithHl(m, a), Pointed(x)), Hl(m.cpu)))
  {
    HlIs(m.cpu, a);
    AluOnByte(WithHl(m, a), x.op, v, f);
    AluAtIndex(m, reg, x, a, v, f);
    AluSides(m, a, v, f, Exec(WithHl(m, a), Pointed(x)), ExecIndex(m, reg, x));
  }

  /** Main result: on memory it is the instruction on the byte at HL, with HL lent to the address. */
  lemma IndexPoints(m: Mach, reg: IndexReg, x: IndexOp)
    requires OnMemory(x)
    ensures Same(ExecIndex(m, reg, x), WithHl(Exec(WithHl(m, Address(m.cpu, reg, x)), Pointed(x)), Hl(m.cpu)))
  {
    var a := Address(m.cpu, reg, x);
    if x.XStR? || x.XLdR? { PointsForRegister(m, reg, x, a); }
    else if x.XAluM? {
      var (v, f) := AluResult(m.cpu.f, x.op, m.cpu.regs[RA], MRead8(m.mem, a));
      PointsForAlu(m, reg, x, a, v, f);
    }
    else if x.XIncM? || x.XDecM? {
      var b := MRead8(m.mem, a);
      var (v, f) := if x.XIncM? then Inc8(m.cpu.f, b) else Dec8(m.cpu.f, b);
      PointsToCount(m, reg, x, a, v, f);
    }
    else { PointsToByte(m, reg, x, a); }
  }

  /** H and L, which the address would hide, are stored and loaded as themselves. */
  lemma IndexMovesHl(m: Mach, reg: IndexReg, d: byte, r: int)
    requires r == RH || r == RL
    ensures var (a, hl) := (Wrap(GetIndex(m.cpu, reg) + Disp(d)), Hl(m.cpu));
            var v := MRead8(m.mem, a);
            && Hl(ExecIndex(m, reg, XLdR(r, d)).cpu)
               == (if r == RH then Lo(hl) as int + 256 * (v as int) else v as int + 256 * (Hi(hl) as int))
            && ExecIndex(m, reg, XStR(d, r)).mem == MWrite8(m.mem, m.rom, a, if r == RH then Hi(hl) else Lo(hl))
  {
    OfHalves(m.cpu.regs[RH], m.cpu.regs[RL]);
  }

  // ---- the indexed CB group --------------------------------------------------------------------------------

  /** The bytes that a shift, a test, a bit cleared or a bit set leaves as they are. */
  predicate Unmoved(q: int, y: int, f: Flags, v: byte)
    requires 0 <= y
  {
    if q == 0 then
      if y == 4 || y == 7 then v == 0
      else if y == 6 then v == 0xFF
      else if y == 2 || y == 3 then v == if f.c then 0xFF else 0
      else v == 0 || v == 0xFF
    else q == 1 || (q == 3 <==> TestBit(v, y))
  }

  lemma ShiftMoves(f: Flags, y: int, v: byte, w: byte, g: Flags)
    requires 0 <= y < 8 && ShiftMeans(y, f, v, w, g)
    ensures w == v <==> Unmoved(0, y, f, v)
  {
  }

  lemma BitMoves(q: int, y: int, f: Flags, v: byte, w: byte, g: Flags)
    requires 2 <= q < 4 && 0 <= y < 8 && CbMeans(q, y, f, v, w, g)
    ensures w == v <==> Unmoved(q, y, f, v)
  {
    assert TestBit(w, y) <==> q == 3;
    assert Pow2(8) == 256;
    if Unmoved(q, y, f, v) { SameBits(w, v, 8); }
  }

  lemma IndexedCbIs(m: Mach, a: u16, q: int, y: int, z: int, v: byte, g: Flags)
    requires 0 <= q < 4 && 0 <= y < 8 && 0 <= z < 8 && v == MRead8(m.mem, a)
    requires g == if q == 0 then Shift(m.cpu.f, y, v).1 else if q == 1 then BitTest(m.cpu.f, v, y) else m.cpu.f
    ensures Same(IndexCb(m, a, 64 * q + 8 * y + z), m.(cpu := m.cpu.(f := g)))
  {
    OctalDigits(q, y, z);
    assert q == 0 ==> (8 * y + z) / 8 == y;
  }

  /** Main result: it sets the flags as it should, but is right about memory only where there is nothing to change. */
  lemma IndexedCbDoes(m: Mach, reg: IndexReg, d: byte, q: int, y: int, z: int) returns (w: byte, g: Flags)
    requires 0 <= q < 4 && 0 <= y < 8 && 0 <= z < 8
    ensures var v := MRead8(m.mem, Wrap(GetIndex(m.cpu, reg) + Disp(d)));
            CbMeans(q, y, m.cpu.f, v, w, g) && (w == v <==> Unmoved(q, y, m.cpu.f, v))
    ensures Same(ExecIndex(m, reg, XCb(d, 64 * q + 8 * y + z)), m.(cpu := m.cpu.(f := g)))
  {
    var a := Wrap(GetIndex(m.cpu, reg) + Disp(d));
    var v, f := MRead8(m.mem, a), m.cpu.f;
    w, g := CbComputes(f, q, y, v);
    if q == 0 { ShiftMoves(f, y, v, w, g); } else if q > 1 { BitMoves(q, y, f, v, w, g); }
    IndexedCbIs(m, a, q, y, z, v, g);
  }
}
