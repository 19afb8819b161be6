/** What the words of the assembly language stand for on the machine, from the words alone. */
module AsmWords {
  import opened Machine
  import opened Z80Alu
  import opened Z80
  import opened Z80Exec
  import Asm

  // ---- conditions -----------------------------------------------------------------------------------------------

  predicate IsCond(w: Asm.Word) { w in {Asm.NZ, Asm.Z, Asm.NC, Asm.C, Asm.PO, Asm.PE, Asm.P, Asm.M} }

  /** The condition a word names holds. */
  predicate Met(w: Asm.Word, f: Flags)
    requires IsCond(w)
  {
    match w
    case NZ => !f.z
    case Z => f.z
    case NC => !f.c
    case C => f.c
    case PO => !f.pv
    case PE => f.pv
    case P => !f.s
    case M => f.s
  }

  // ---- registers -------------------------------------------------------------------------------------------------

  predicate IsReg8(w: Asm.Word) { w in {Asm.A, Asm.B, Asm.C, Asm.D, Asm.E, Asm.H, Asm.L} }

  /** The high halves of the pairs, the low ones, and A. */
  function Get8(c: Cpu, w: Asm.Word): byte
    requires IsReg8(w)
  {
    match w
    case A => c.regs[RA]
    case B => Hi(Bc(c))
    case C => Lo(Bc(c))
    case D => Hi(De(c))
    case E => Lo(De(c))
    case H => Hi(Hl(c))
    case L => Lo(Hl(c))
  }

  predicate IsPair(w: Asm.Word) { w in {Asm.BC, Asm.DE, Asm.HL, Asm.SP, Asm.AF, Asm.IX, Asm.IY} }

  function Get16(c: Cpu, w: Asm.Word): u16
    requires IsPair(w)
  {
    match w
    case BC => Bc(c)
    case DE => De(c)
    case HL => Hl(c)
    case SP => c.sp
    case AF => Pack(c.f) as int + 256 * (c.regs[RA] as int)
    case IX => c.ix
    case IY => c.iy
  }

  /** The register named, and no other, now holds `v`. */
  ghost predicate Puts8(x: Mach, w: Asm.Word, v: byte, r: Mach)
    requires IsReg8(w)
  {
    && r == x.(cpu := x.cpu.(regs := r.cpu.regs))
    && forall u: Asm.Word :: IsReg8(u) ==> Get8(r.cpu, u) == if u == w then v else Get8(x.cpu, u)
  }

  /** The pair named, and no other register, now holds `v`. */
  ghost predicate Puts16(x: Mach, w: Asm.Word, v: u16, r: Mach)
    requires IsPair(w)
  {
    && Get16(r.cpu, w) == v
    && r == x.(cpu := x.cpu.(regs := r.cpu.regs, f := r.cpu.f, sp := r.cpu.sp, ix := r.cpu.ix, iy := r.cpu.iy))
    && (forall u: Asm.Word :: IsPair(u) && u != w && u != Asm.AF ==> Get16(r.cpu, u) == Get16(x.cpu, u))
    && (w != Asm.AF ==> r.cpu.regs[RA] == x.cpu.regs[RA] && r.cpu.f == x.cpu.f)
  }

  // ---- operands --------------------------------------------------------------------------------------------------

  /** A byte of memory: at a pair, at an address, or at an index register and a displacement. */
  predicate InMemory(a: Asm.Operand) {
    match a
    case Paren(Kw(w)) => w in {Asm.BC, Asm.DE, Asm.HL}
    case ParenNum(_) => true
    case Indexed(w, d) => w in {Asm.IX, Asm.IY} && -0x80 <= d < 0x80
    case _ => false
  }

  function Address(c: Cpu, a: Asm.Operand): u16
    requires InMemory(a)
  {
    match a
    case Paren(n) => Get16(c, n.w)
    case ParenNum(v) => v % 0x1_0000
    case Indexed(w, d) => Wrap(Get16(c, w) + d)
  }

  predicate InRegister(a: Asm.Operand) { a.Bare? && a.n.Kw? && IsReg8(a.n.w) }

  predicate InPair(a: Asm.Operand) { a.Bare? && a.n.Kw? && IsPair(a.n.w) }

  predicate Readable(a: Asm.Operand) { InRegister(a) || InMemory(a) || a.Num? }

  /** The byte an operand names. */
  function Read8(x: Mach, a: Asm.Operand): byte
    requires Readable(a)
  {
    if InRegister(a) then Get8(x.cpu, a.n.w) else if a.Num? then a.v % 0x100 else MRead8(x.mem, Address(x.cpu, a))
  }

  /** The byte an operand names has become `v`, and nothing else has changed. */
  ghost predicate Writes8(x: Mach, a: Asm.Operand, v: byte, r: Mach)
    requires InRegister(a) || InMemory(a)
  {
    if InRegister(a) then Puts8(x, a.n.w, v, r)
    else r == x.(mem := MWrite8(x.mem, x.rom, Address(x.cpu, a), v))
  }

  function WithFlags(x: Mach, f: Flags): Mach { x.(cpu := x.cpu.(f := f)) }

  // ---- the words against the register file ----------------------------------------------------------------------

  /** Where a register named by a word is kept. */
  function Place(w: Asm.Word): int
    requires IsReg8(w)
  {
    match w
    case B => 0
    case C => 1
    case D => 2
    case E => 3
    case H => 4
    case L => 5
    case A => 7
  }

  lemma Placed(c: Cpu, w: Asm.Word)
    requires IsReg8(w)
    ensures Get8(c, w) == c.regs[Place(w)]
  {
  }

  lemma SetsRegister(x: Mach, w: Asm.Word, v: byte)
    requires IsReg8(w)
    ensures Puts8(x, w, v, x.(cpu := x.cpu.(regs := x.cpu.regs[Place(w) := v])))
  {
    var r := x.(cpu := x.cpu.(regs := x.cpu.regs[Place(w) := v]));
    forall u: Asm.Word | IsReg8(u) ensures Get8(r.cpu, u) == if u == w then v else Get8(x.cpu, u) {
      Placed(r.cpu, u);
      Placed(x.cpu, u);
    }
  }

  lemma SetsPair(x: Mach, w: Asm.Word, v: u16)
    requires w in {Asm.BC, Asm.DE, Asm.HL, Asm.SP}
    ensures var p := if w == Asm.BC then 0 else if w == Asm.DE then 1 else if w == Asm.HL then 2 else 3;
            Puts16(x, w, v, x.(cpu := Set1(x.cpu, p, v)))
  {
  }

  lemma SetsIndex(x: Mach, w: Asm.Word, v: u16)
    requires w in {Asm.IX, Asm.IY}
    ensures Puts16(x, w, v, x.(cpu := SetIndex(x.cpu, if w == Asm.IX then IX else IY, v)))
  {
  }

  lemma LowDigits(b: byte)
    ensures b == 16 * (b / 16) + 8 * (b / 8 % 2) + 4 * (b / 4 % 2) + 2 * (b / 2 % 2) + b % 2
  {
    assert b / 2 / 2 == b / 4 && b / 4 / 2 == b / 8 && b / 8 / 2 == b / 16;
  }

  lemma HighDigits(b: byte)
    ensures b / 16 == 8 * (b / 128 % 2) + 4 * (b / 64 % 2) + 2 * (b / 32 % 2) + b / 16 % 2
  {
    assert b / 16 / 2 == b / 32 && b / 32 / 2 == b / 64 && b / 64 / 2 == b / 128;
  }

  lemma WeightIs(b: byte, k: int)
    requires k > 0
    ensures Weight(Bit(b, k), k) == k * (b / k % 2)
  {
  }

  lemma PackUnpack(b: byte)
    ensures Pack(Unpack(b)) == b
  {
    LowDigits(b);
    HighDigits(b);
    WeightIs(b, 1);
    WeightIs(b, 2);
    WeightIs(b, 4);
    WeightIs(b, 8);
    WeightIs(b, 16);
    WeightIs(b, 32);
    WeightIs(b, 64);
    WeightIs(b, 128);
  }

  lemma SetsAf(x: Mach, v: u16)
    ensures Puts16(x, Asm.AF, v, x.(cpu := Set2(x.cpu, 3, v)))
  {
    PackUnpack(Lo(v));
  }
}
