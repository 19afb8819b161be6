/**
 What pairs of instructions do together: calls and returns, interrupts and their return, pushes and pops;
 and the 16-bit sums and differences with their flags.
 */
module Z80Stack {
  import opened Machine
  import opened Z80Alu
  import opened Z80
  import opened Z80Exec

  // ---- calls ---------------------------------------------------------------------------------------------

  /** There is room for one more word on a stack that can be written. */
  predicate StackInRam(m: Mach) { 2 <= m.cpu.sp && m.rom <= m.cpu.sp - 2 }

  /** The word `v` has gone on the stack, and no other byte has changed. */
  ghost predicate WordOn(m: Mach, v: u16, r: Mach) {
    && r.cpu.sp == m.cpu.sp - 2 && MRead16(r.mem, r.cpu.sp) == v
    && forall a :: 0 <= a < MEM_SIZE && a != r.cpu.sp && a != r.cpu.sp + 1 ==> r.mem[a] == m.mem[a]
  }

  lemma Pushed(m: Mach, v: u16)
    requires StackInRam(m)
    ensures var r := Push16(m, v); WordOn(m, v, r) && r == m.(cpu := m.cpu.(sp := m.cpu.sp - 2), mem := r.mem)
  {
  }

  /** Where a call goes, if it is taken. */
  datatype Going = Nowhere | To(nn: u16)

  function Calling(i: Instr, f: Flags): Going {
    match i
    case Call(nn) => To(nn)
    case CallIf(c, nn) => if Cond(f, c) then To(nn) else Nowhere
    case Rst(y) => To(Wrap(y * 8))
    case _ => Nowhere
  }

  predicate Returning(i: Instr, f: Flags) { i.Ret? || (i.RetIf? && Cond(f, i.c)) }

  function Next(m: Mach): u16 { Wrap(m.cpu.pc + Decode(m.mem, m.cpu.pc).len) }

  lemma ExecCall(m: Mach, i: Instr)
    requires Calling(i, m.cpu.f).To?
    ensures Exec(m, i) == Goto(Push16(m, m.cpu.pc), true, Calling(i, m.cpu.f).nn)
  {
  }

  lemma ExecReturn(m: Mach, i: Instr)
    requires Returning(i, m.cpu.f)
    ensures Exec(m, i) == Goto(Pop16(m).0, true, Pop16(m).1)
  {
  }

  /** The call `d` taken in state `m` leaves its return address on the stack. */
  ghost predicate CallMade(m: Mach, d: Fetched, r: Mach) {
    && Calling(d.i, m.cpu.f).To? && r.cpu.pc == Calling(d.i, m.cpu.f).nn
    && r.cpu.regs == m.cpu.regs && WordOn(m, Wrap(m.cpu.pc + d.len), r)
  }

  predicate ReturnMade(m: Mach, r: Mach) {
    && r.cpu.pc == MRead16(m.mem, m.cpu.sp) && r.cpu.sp == Wrap(m.cpu.sp + 2)
    && r.mem == m.mem && r.cpu.regs == m.cpu.regs
  }

  predicate AtCall(m: Mach) { Calling(Decode(m.mem, m.cpu.pc).i, m.cpu.f).To? && StackInRam(m) }

  predicate AtReturn(m: Mach) { Returning(Decode(m.mem, m.cpu.pc).i, m.cpu.f) }

  lemma StepFetches(m: Mach, d: Fetched)
    requires d == Decode(m.mem, m.cpu.pc)
    ensures Step(m) == Exec(Fetching(m, d.len), d.i)
  {
  }

  lemma CallTaken(m: Mach)
    requires AtCall(m)
    ensures CallMade(m, Decode(m.mem, m.cpu.pc), Step(m))
  {
    var d := Decode(m.mem, m.cpu.pc);
    StepFetches(m, d);
    CallExecuted(m, d);
  }

  /** A step at an instruction that is known executes it. */
  lemma StepIs(m: Mach, i: Instr, len: nat)
    requires Decode(m.mem, m.cpu.pc) == Fetched(i, len)
    ensures Step(m) == Exec(Fetching(m, len), i)
  {
  }

  lemma Called(m: Mach)
    requires AtCall(m)
    ensures WordOn(m, Next(m), Step(m))
  {
    CallTaken(m);
  }

  lemma CallExecuted(m: Mach, d: Fetched)
    requires Calling(d.i, m.cpu.f).To? && StackInRam(m)
    ensures CallMade(m, d, Exec(Fetching(m, d.len), d.i))
  {
    var x := Fetching(m, d.len);
    ExecCall(x, d.i);
    Pushed(x, x.cpu.pc);
  }

  lemma Returned(m: Mach)
    requires AtReturn(m)
    ensures ReturnMade(m, Step(m))
  {
    var d := Decode(m.mem, m.cpu.pc);
    StepFetches(m, d);
    ExecReturn(Fetching(m, d.len), d.i);
  }

  /** The stack is as the call left it. */
  predicate StackKept(r: Mach, s: Mach) {
    s.cpu.sp == r.cpu.sp && MRead16(s.mem, s.cpu.sp) == MRead16(r.mem, r.cpu.sp)
  }

  /** What was pushed is where the return goes. */
  lemma WordReturns(m: Mach, v: u16, r: Mach, s: Mach, t: Mach)
    requires 2 <= m.cpu.sp && WordOn(m, v, r) && StackKept(r, s) && ReturnMade(s, t)
    ensures t.cpu.pc == v && t.cpu.sp == m.cpu.sp
  {
  }

  /**
   Main result: after a call, whatever the subroutine does, a return executed with the stack pointer where
   the call left it and the word there untouched goes to the instruction after the call.
   */
  lemma CallReturns(m: Mach, s: Mach)
    requires AtCall(m) && StackKept(Step(m), s) && AtReturn(s)
    ensures Step(s).cpu.pc == Next(m) && Step(s).cpu.sp == m.cpu.sp
  {
    Called(m);
    Returned(s);
    WordReturns(m, Next(m), Step(m), s, Step(s));
  }

  lemma DecodeReti(mem: Mem, pc: u16)
    requires pc + 1 < MEM_SIZE && mem[pc] == 0xED && mem[pc + 1] == 0x4D
    ensures Decode(mem, pc) == Fetched(RetN(1), 2)
  {
    assert B(mem, pc) == 0xED && B(mem, pc + 1) == 0x4D;
    assert DecodeEd(0x4D, mem, pc + 2) == Fetched(RetN(1), 2);
  }

  lemma ExecReti(m: Mach)
    ensures Exec(m, RetN(1)) == Goto(Pop16(m).0, true, Pop16(m).1)
  {
  }

  predicate AtReti(m: Mach) {
    m.cpu.pc + 1 < MEM_SIZE && m.mem[m.cpu.pc] == 0xED && m.mem[m.cpu.pc + 1] == 0x4D
  }

  lemma RetiMade(m: Mach)
    requires AtReti(m)
    ensures ReturnMade(m, Step(m))
  {
    DecodeReti(m.mem, m.cpu.pc);
    StepIs(m, RetN(1), 2);
    ExecReti(Fetching(m, 2));
  }

  lemma Interrupted(m: Mach)
    requires m.cpu.iff1 && m.cpu.im == 1 && StackInRam(m)
    ensures var r := Interrupt(m);
            r.cpu.pc == 0x38 && !r.cpu.iff1 && !r.cpu.iff2 && r.cpu.regs == m.cpu.regs && WordOn(m, m.cpu.pc, r)
  {
    Pushed(m.(cpu := m.cpu.(iff1 := false, iff2 := false)), m.cpu.pc);
  }

  /** Main result: the handler starts at 0x38 with interrupts off, and RETI at its end resumes the program. */
  lemma InterruptReturns(m: Mach, s: Mach)
    requires m.cpu.iff1 && m.cpu.im == 1 && StackInRam(m) && StackKept(Interrupt(m), s) && AtReti(s)
    ensures Interrupt(m).cpu.pc == 0x38 && !Interrupt(m).cpu.iff1 && !Interrupt(m).cpu.iff2
    ensures Step(s).cpu.pc == m.cpu.pc && Step(s).cpu.sp == m.cpu.sp
  {
    Interrupted(m);
    RetiMade(s);
    WordReturns(m, m.cpu.pc, Interrupt(m), s, Step(s));
  }

  // ---- pushes and pops ----------------------------------------------------------------------------------

  /** The bit above the `k` lowest values. */
  lemma BitIs(v: byte, k: int, q: int, b: bool, r: int)
    requires 0 <= r < k && v == k * (2 * q + Weight(b, 1)) + r
    ensures Bit(v, k) == b
  {
    QuotientUnique(v, k, 2 * q + Weight(b, 1), r);
  }

  lemma HighFlags(f: Flags)
    ensures var v := Pack(f); Bit(v, 128) == f.s && Bit(v, 64) == f.z && Bit(v, 32) == f.y && Bit(v, 16) == f.h
  {
    var v := Pack(f);
    var low := Weight(f.x, 8) + Weight(f.pv, 4) + Weight(f.n, 2) + Weight(f.c, 1);
    BitIs(v, 16, Weight(f.s, 4) + Weight(f.z, 2) + Weight(f.y, 1), f.h, low);
    BitIs(v, 32, Weight(f.s, 2) + Weight(f.z, 1), f.y, Weight(f.h, 16) + low);
    BitIs(v, 64, Weight(f.s, 1), f.z, Weight(f.y, 32) + Weight(f.h, 16) + low);
    BitIs(v, 128, 0, f.s, Weight(f.z, 64) + Weight(f.y, 32) + Weight(f.h, 16) + low);
  }

  lemma LowFlags(f: Flags)
    ensures var v := Pack(f); Bit(v, 8) == f.x && Bit(v, 4) == f.pv && Bit(v, 2) == f.n && Bit(v, 1) == f.c
  {
    var v := Pack(f);
    var high := Weight(f.s, 8) + Weight(f.z, 4) + Weight(f.y, 2) + Weight(f.h, 1);
    BitIs(v, 8, high, f.x, Weight(f.pv, 4) + Weight(f.n, 2) + Weight(f.c, 1));
    BitIs(v, 4, 2 * high + Weight(f.x, 1), f.pv, Weight(f.n, 2) + Weight(f.c, 1));
    BitIs(v, 2, 4 * high + Weight(f.x, 2) + Weight(f.pv, 1), f.n, Weight(f.c, 1));
    BitIs(v, 1, 8 * high + Weight(f.x, 4) + Weight(f.pv, 2) + Weight(f.n, 1), f.c, 0);
  }

  lemma UnpackPack(f: Flags)
    ensures Unpack(Pack(f)) == f
  {
    HighFlags(f);
    LowFlags(f);
  }

  lemma SetGet(c: Cpu, p: int, v: u16)
    requires 0 <= p < 3
    ensures Get2(Set2(c, p, v), p) == v && Set2(c, p, v).sp == c.sp
  {
  }

  lemma ExecPush(m: Mach, p: int)
    ensures Exec(m, Push(p)) == Push16(m, Get2(m.cpu, p))
  {
  }

  lemma ExecPop(m: Mach, p: int)
    ensures var (m1, v) := Pop16(m); Exec(m, Pop(p)) == m1.(cpu := Set2(m1.cpu, p, v))
  {
  }

  lemma PushedPopped(m: Mach, v: u16)
    requires StackInRam(m)
    ensures var (x, w) := Pop16(Push16(m, v)); w == v && x == m.(mem := x.mem)
  {
    Pushed(m, v);
  }

  /** A pair pushed and popped into another is copied, and the stack pointer comes back. */
  lemma PushPop(m: Mach, p: int, q: int)
    requires 0 <= p < 4 && 0 <= q < 3 && StackInRam(m)
    ensures var r := Exec(Exec(m, Push(p)), Pop(q)); r.cpu.sp == m.cpu.sp && Get2(r.cpu, q) == Get2(m.cpu, p)
  {
    var v := Get2(m.cpu, p);
    ExecPush(m, p);
    PushedPopped(m, v);
    ExecPop(Push16(m, v), q);
    SetGet(m.cpu, q, v);
  }

  lemma Halves(low: byte, high: byte)
    ensures Lo(low as int + 256 * (high as int)) == low && Hi(low as int + 256 * (high as int)) == high
  {
  }

  lemma SetAf(c: Cpu, a: byte, p: byte)
    ensures Set2(c, 3, p as int + 256 * (a as int)) == SetA(c, a).(f := Unpack(p))
  {
    Halves(p, a);
  }

  lemma SetGetAf(c: Cpu)
    ensures Set2(c, 3, Get2(c, 3)) == c
  {
    SetAf(c, c.regs[RA], Pack(c.f));
    UnpackPack(c.f);
    assert c.regs[RA := c.regs[RA]] == c.regs;
  }

  /** PUSH AF and POP AF keep accumulator and flags. */
  lemma PushPopAf(m: Mach)
    requires StackInRam(m)
    ensures Exec(Exec(m, Push(3)), Pop(3)).cpu == m.cpu
  {
    var v := Get2(m.cpu, 3);
    ExecPush(m, 3);
    PushedPopped(m, v);
    ExecPop(Push16(m, v), 3);
    SetGetAf(m.cpu);
  }

  // ---- 16-bit arithmetic ------------------------------------------------------------------------------------

  /** The signed sum overflows neither way, nor does it leave the sign of its first operand. */
  predicate SignStays(a: u16, b: u16, cin: int) {
    var sum := Int16(a) + Int16(b) + cin;
    if a < 0x8000 then 0 <= sum < 0x8000 else -0x8000 <= sum < 0
  }

  /** ADC HL,rr: sum, carry, zero and sign; the overflow flag is right if and only if the sum keeps HL's sign. */
  lemma Adc16Sums(a: u16, b: u16, cin: int)
    requires 0 <= cin <= 1
    ensures var (r, g) := Wide(a, b, a + b + cin, false);
            && r + (if g.c then 0x1_0000 else 0) == a + b + cin && (g.z <==> r == 0) && (g.s <==> Int16(r) < 0)
            && var fits := -0x8000 <= Int16(a) + Int16(b) + cin < 0x8000;
            (g.pv <==> !fits) <==> SignStays(a, b, cin)
  {
  }

  /** 0x7FFF + 1 overflows, and the flag does not say so. */
  lemma AdcMissesOverflow()
    ensures var (r, g) := Wide(0x7FFF, 1, 0x8000, false); r == 0x8000 && !g.pv
  {
  }

  /** SBC HL,rr: difference, borrow, zero, sign and overflow. */
  lemma Sbc16Subtracts(a: u16, b: u16, cin: int)
    requires 0 <= cin <= 1
    ensures var (r, g) := Wide(a, b, a - b - cin, true);
            && r - (if g.c then 0x1_0000 else 0) == a - b - cin && (g.z <==> r == 0) && (g.s <==> Int16(r) < 0)
            && (g.pv <==> !(-0x8000 <= Int16(a) - Int16(b) - cin < 0x8000))
  {
  }

  /** ADC HL,rr on the machine: HL and the flags are those of that sum, and nothing else changes. */
  lemma AdcHlRuns(m: Mach, p: int, sum: int)
    requires sum == Hl(m.cpu) + Get1(m.cpu, p) + Carry(m.cpu.f)
    ensures var (v, g) := Wide(Hl(m.cpu), Get1(m.cpu, p), sum, false);
            Same(ExecArith(m, AdcHl(p)), m.(cpu := SetHl(m.cpu.(f := g), v)))
  {
  }

  /** SBC HL,rr on the machine. */
  lemma SbcHlRuns(m: Mach, p: int, diff: int)
    requires diff == Hl(m.cpu) - Get1(m.cpu, p) - Carry(m.cpu.f)
    ensures var (v, g) := Wide(Hl(m.cpu), Get1(m.cpu, p), diff, true);
            Same(ExecArith(m, SbcHl(p)), m.(cpu := SetHl(m.cpu.(f := g), v)))
  {
  }
}
