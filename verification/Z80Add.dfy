/**
 A multi-byte addition as a program: an ADC loop, stepped by the emulator to its end, adds the number at
 HL to the number at DE.
 */
module Z80Add {
  import opened Machine
  import opened Z80Alu
  import opened Z80
  import opened Z80Exec
  import opened Z80Block
  import opened Z80Stack

  /** ADC or SBC, on A and the byte at HL. */
  function Opcode(sub: bool): byte { if sub then 0x9E else 0x8E }

  /** `LD A,(DE)`, `ADC A,(HL)` or `SBC A,(HL)`, `LD (DE),A`, `INC HL`, `INC DE`, `DJNZ` back to the start. */
  predicate LoopAt(mem: Mem, p: nat, sub: bool) {
    && p + 7 <= MEM_SIZE && mem[p] == 0x1A && mem[p + 1] == Opcode(sub) && mem[p + 2] == 0x12
    && mem[p + 3] == 0x23 && mem[p + 4] == 0x13 && mem[p + 5] == 0x10 && mem[p + 6] == 0xF9
  }

  lemma LoopBytes(mem: Mem, p: u16, sub: bool)
    requires LoopAt(mem, p, sub)
    ensures B(mem, p) == 0x1A && B(mem, p + 1) == Opcode(sub) && B(mem, p + 2) == 0x12 && B(mem, p + 3) == 0x23
    ensures B(mem, p + 4) == 0x13 && B(mem, p + 5) == 0x10 && B(mem, p + 6) == 0xF9
  {
  }

  /** The loop is still there after a byte elsewhere is written. */
  lemma LoopKept(mem: Mem, p: nat, sub: bool, a: nat, v: byte)
    requires LoopAt(mem, p, sub) && a < MEM_SIZE && (a < p || p + 7 <= a)
    ensures LoopAt(mem[a := v], p, sub)
  {
  }

  /** What an operation makes of two bytes and the flags before it. */
  type Operation = (byte, byte, Flags) -> (byte, Flags)

  function Combine(sub: bool): Operation {
    if sub then (a: byte, b: byte, f: Flags) => Sbc8(f, a, b) else (a: byte, b: byte, f: Flags) => Adc8(f, a, b)
  }

  /** The operation on two numbers, byte by byte from the low end. */
  function Chain(comb: Operation, a: seq<byte>, b: seq<byte>, f: Flags): (r: (seq<byte>, Flags))
    requires |a| == |b| > 0
    ensures |r.0| == |a|
  {
    var (x, g) := comb(a[0], b[0], f);
    if |a| == 1 then ([x], g)
    else
      var (rest, h) := Chain(comb, a[1..], b[1..], g);
      ([x] + rest, h)
  }

  lemma {:induction false} ChainAdds(a: seq<byte>, b: seq<byte>, f: Flags)
    requires |a| == |b| > 0
    ensures Chain(Combine(false), a, b, f) == AddChain(a, b, Carry(f))
  {
    if |a| > 1 { ChainAdds(a[1..], b[1..], Adc8(f, a[0], b[0]).1); }
  }

  lemma {:induction false} ChainSubtracts(a: seq<byte>, b: seq<byte>, f: Flags)
    requires |a| == |b| > 0
    ensures Chain(Combine(true), a, b, f) == SubChain(a, b, Carry(f))
  {
    if |a| > 1 { ChainSubtracts(a[1..], b[1..], Sbc8(f, a[0], b[0]).1); }
  }

  // ---- the six instructions ----------------------------------------------------------------------------------

  lemma DecodeLoop(mem: Mem, pc: u16)
    ensures B(mem, pc) == 0x1A ==> Decode(mem, pc) == Fetched(LdAInd(1), 1)
    ensures B(mem, pc) == 0x8E ==> Decode(mem, pc) == Fetched(Alu(1, 6), 1)
    ensures B(mem, pc) == 0x9E ==> Decode(mem, pc) == Fetched(Alu(3, 6), 1)
    ensures B(mem, pc) == 0x12 ==> Decode(mem, pc) == Fetched(StAInd(1), 1)
    ensures B(mem, pc) == 0x23 ==> Decode(mem, pc) == Fetched(IncPair(2), 1)
    ensures B(mem, pc) == 0x13 ==> Decode(mem, pc) == Fetched(IncPair(1), 1)
    ensures B(mem, pc) == 0x10 ==> Decode(mem, pc) == Fetched(Djnz(B(mem, pc + 1)), 2)
  {
  }

  lemma ExecLdA(m: Mach)
    ensures Exec(m, LdAInd(1)) == m.(cpu := SetA(m.cpu, MRead8(m.mem, De(m.cpu))))
  {
  }

  lemma ExecAdc(m: Mach)
    ensures var (r, f) := Adc8(m.cpu.f, m.cpu.regs[RA], MRead8(m.mem, Hl(m.cpu)));
            Exec(m, Alu(1, 6)) == m.(cpu := SetA(m.cpu, r).(f := f))
  {
  }

  lemma ExecSbc(m: Mach)
    ensures var (r, f) := Sbc8(m.cpu.f, m.cpu.regs[RA], MRead8(m.mem, Hl(m.cpu)));
            Exec(m, Alu(3, 6)) == m.(cpu := SetA(m.cpu, r).(f := f))
  {
  }

  lemma ExecStA(m: Mach)
    ensures Exec(m, StAInd(1)) == SetMem8(m, De(m.cpu), m.cpu.regs[RA])
  {
  }

  lemma ExecIncHl(m: Mach)
    ensures Exec(m, IncPair(2)) == m.(cpu := SetHl(m.cpu, Wrap(Hl(m.cpu) + 1)))
  {
  }

  lemma ExecIncDe(m: Mach)
    ensures Exec(m, IncPair(1)) == m.(cpu := SetDe(m.cpu, Wrap(De(m.cpu) + 1)))
  {
  }

  lemma PairsSet(c: Cpu, v: u16)
    ensures var x := SetHl(c, v); Hl(x) == v && De(x) == De(c) && x.regs[RB] == c.regs[RB] && x.regs[RA] == c.regs[RA]
    ensures var x := SetDe(c, v); De(x) == v && Hl(x) == Hl(c) && x.regs[RB] == c.regs[RB] && x.regs[RA] == c.regs[RA]
  {
  }

  lemma ExecDjnz(m: Mach, d: byte)
    ensures var b: byte := (m.cpu.regs[RB] as int - 1) % 256;
            Exec(m, Djnz(d)) == Jump(m.(cpu := m.cpu.(regs := m.cpu.regs[RB := b])), b != 0, d)
  {
  }

  // ---- one turn -------------------------------------------------------------------------------------------------

  /** What the loop works on: byte count in B, numbers at DE and HL, the carry. */
  datatype Work = Work(pc: u16, b: byte, de: u16, hl: u16, a: byte, f: Flags, sp: u16, mem: Mem, rom: u16)

  function WorkOf(m: Mach): Work {
    Work(m.cpu.pc, m.cpu.regs[RB], De(m.cpu), Hl(m.cpu), m.cpu.regs[RA], m.cpu.f, m.cpu.sp, m.mem, m.rom)
  }

  function LdA(w: Work): Work { w.(pc := Wrap(w.pc + 1), a := MRead8(w.mem, w.de)) }

  function Adc(w: Work, comb: Operation): Work {
    var (r, f) := comb(w.a, MRead8(w.mem, w.hl), w.f);
    w.(pc := Wrap(w.pc + 1), a := r, f := f)
  }

  function StA(w: Work): Work { w.(pc := Wrap(w.pc + 1), mem := MWrite8(w.mem, w.rom, w.de, w.a)) }

  function IncHl(w: Work): Work { w.(pc := Wrap(w.pc + 1), hl := Wrap(w.hl + 1)) }

  function IncDe(w: Work): Work { w.(pc := Wrap(w.pc + 1), de := Wrap(w.de + 1)) }

  function DjnzOf(w: Work): Work {
    var b: byte := (w.b as int - 1) % 256;
    w.(b := b, pc := if b != 0 then Wrap(Wrap(w.pc + 2) + Disp(B(w.mem, w.pc + 1))) else Wrap(w.pc + 2))
  }

  /** What a step does at each byte of the loop. */
  ghost predicate Steps(step: Mach -> Mach, sub: bool, comb: Operation) {
    forall m {:trigger WorkOf(step(m))} ::
      var w, op := WorkOf(m), B(m.mem, m.cpu.pc);
      && (op == 0x1A ==> WorkOf(step(m)) == LdA(w))
      && (op == Opcode(sub) ==> WorkOf(step(m)) == Adc(w, comb))
      && (op == 0x12 ==> WorkOf(step(m)) == StA(w))
      && (op == 0x23 ==> WorkOf(step(m)) == IncHl(w))
      && (op == 0x13 ==> WorkOf(step(m)) == IncDe(w))
      && (op == 0x10 ==> WorkOf(step(m)) == DjnzOf(w))
  }

  lemma StepLdA(m: Mach)
    requires B(m.mem, m.cpu.pc) == 0x1A
    ensures WorkOf(Step(m)) == LdA(WorkOf(m))
  {
    DecodeLoop(m.mem, m.cpu.pc);
    ExecLdA(Fetching(m, 1));
    StepIs(m, LdAInd(1), 1);
  }

  lemma StepAdc(m: Mach)
    requires B(m.mem, m.cpu.pc) == 0x8E
    ensures WorkOf(Step(m)) == Adc(WorkOf(m), Combine(false))
  {
    DecodeLoop(m.mem, m.cpu.pc);
    ExecAdc(Fetching(m, 1));
    StepIs(m, Alu(1, 6), 1);
  }

  lemma StepSbc(m: Mach)
    requires B(m.mem, m.cpu.pc) == 0x9E
    ensures WorkOf(Step(m)) == Adc(WorkOf(m), Combine(true))
  {
    DecodeLoop(m.mem, m.cpu.pc);
    ExecSbc(Fetching(m, 1));
    StepIs(m, Alu(3, 6), 1);
  }

  lemma StepStA(m: Mach)
    requires B(m.mem, m.cpu.pc) == 0x12
    ensures WorkOf(Step(m)) == StA(WorkOf(m))
  {
    DecodeLoop(m.mem, m.cpu.pc);
    ExecStA(Fetching(m, 1));
    StepIs(m, StAInd(1), 1);
  }

  lemma StepIncHl(m: Mach)
    requires B(m.mem, m.cpu.pc) == 0x23
    ensures WorkOf(Step(m)) == IncHl(WorkOf(m))
  {
    DecodeLoop(m.mem, m.cpu.pc);
    ExecIncHl(Fetching(m, 1));
    PairsSet(Fetching(m, 1).cpu, Wrap(Hl(m.cpu) + 1));
    StepIs(m, IncPair(2), 1);
  }

  lemma StepIncDe(m: Mach)
    requires B(m.mem, m.cpu.pc) == 0x13
    ensures WorkOf(Step(m)) == IncDe(WorkOf(m))
  {
    DecodeLoop(m.mem, m.cpu.pc);
    ExecIncDe(Fetching(m, 1));
    PairsSet(Fetching(m, 1).cpu, Wrap(De(m.cpu) + 1));
    StepIs(m, IncPair(1), 1);
  }

  lemma DjnzWorks(m: Mach, x: Mach, d: byte)
    requires x == Fetching(m, 2) && d == B(m.mem, m.cpu.pc + 1)
    ensures WorkOf(Exec(x, Djnz(d))) == DjnzOf(WorkOf(m))
  {
    ExecDjnz(x, d);
  }

  lemma StepDjnz(m: Mach)
    requires B(m.mem, m.cpu.pc) == 0x10
    ensures WorkOf(Step(m)) == DjnzOf(WorkOf(m))
  {
    var d := B(m.mem, m.cpu.pc + 1);
    DecodeLoop(m.mem, m.cpu.pc);
    StepIs(m, Djnz(d), 2);
    DjnzWorks(m, Fetching(m, 2), d);
  }

  lemma StepSteps(sub: bool)
    ensures Steps(Step, sub, Combine(sub))
  {
    forall m
      ensures var w, op := WorkOf(m), B(m.mem, m.cpu.pc);
              && (op == 0x1A ==> WorkOf(Step(m)) == LdA(w))
              && (op == Opcode(sub) ==> WorkOf(Step(m)) == Adc(w, Combine(sub)))
              && (op == 0x12 ==> WorkOf(Step(m)) == StA(w)) && (op == 0x23 ==> WorkOf(Step(m)) == IncHl(w))
              && (op == 0x13 ==> WorkOf(Step(m)) == IncDe(w)) && (op == 0x10 ==> WorkOf(Step(m)) == DjnzOf(w))
    {
      var op := B(m.mem, m.cpu.pc);
      if op == 0x1A { StepLdA(m); }
      else if op == Opcode(sub) { if sub { StepSbc(m); } else { StepAdc(m); } }
      else if op == 0x12 { StepStA(m); }
      else if op == 0x23 { StepIncHl(m); }
      else if op == 0x13 { StepIncDe(m); }
      else if op == 0x10 { StepDjnz(m); }
    }
  }

  /** One turn: a byte is combined, and the loop goes on unless B ran out. */
  function Turned(w: Work, p: u16, comb: Operation): Work
    requires p + 7 <= MEM_SIZE
  {
    Counted(Combined(w, p, comb), p)
  }

  function Combined(w: Work, p: u16, comb: Operation): Work
    requires p + 7 <= MEM_SIZE
  {
    var (r, f) := comb(MRead8(w.mem, w.de), MRead8(w.mem, w.hl), w.f);
    w.(pc := p + 3, a := r, f := f, mem := if w.de < MEM_SIZE then w.mem[w.de := r] else w.mem)
  }

  function Counted(h: Work, p: u16): Work
    requires p + 7 <= MEM_SIZE
  {
    var b: byte := (h.b as int - 1) % 256;
    h.(pc := if b != 0 then p else p + 7, b := b, de := Wrap(h.de + 1), hl := Wrap(h.hl + 1))
  }

  /** The loop is at `p`, the machine at its start, and the next byte to be written is neither ROM nor part of it. */
  predicate AtLoop(w: Work, p: u16, sub: bool) {
    LoopAt(w.mem, p, sub) && w.pc == p && w.rom <= w.de < MEM_SIZE && (w.de < p || p + 7 <= w.de)
  }

  lemma At0(step: Mach -> Mach, m: Mach, p: u16, sub: bool, comb: Operation)
    requires Steps(step, sub, comb) && LoopAt(m.mem, p, sub) && m.cpu.pc == p
    ensures WorkOf(step(m)) == LdA(WorkOf(m)) && step(m).cpu.pc == p + 1 && step(m).mem == m.mem
  {
    LoopBytes(m.mem, p, sub);
    assert WorkOf(step(m)).pc == p + 1 && WorkOf(step(m)).mem == m.mem;
  }

  lemma At1(step: Mach -> Mach, m: Mach, p: u16, sub: bool, comb: Operation)
    requires Steps(step, sub, comb) && LoopAt(m.mem, p, sub) && m.cpu.pc == p + 1
    ensures WorkOf(step(m)) == Adc(WorkOf(m), comb) && step(m).cpu.pc == p + 2 && step(m).mem == m.mem
  {
    LoopBytes(m.mem, p, sub);
    assert WorkOf(step(m)).pc == p + 2 && WorkOf(step(m)).mem == m.mem;
  }

  lemma At2(step: Mach -> Mach, m: Mach, p: u16, sub: bool, comb: Operation)
    requires Steps(step, sub, comb) && LoopAt(m.mem, p, sub) && m.cpu.pc == p + 2
    ensures WorkOf(step(m)) == StA(WorkOf(m))
  {
    LoopBytes(m.mem, p, sub);
  }

  lemma At3(step: Mach -> Mach, m: Mach, p: u16, sub: bool, comb: Operation)
    requires Steps(step, sub, comb) && LoopAt(m.mem, p, sub) && m.cpu.pc == p + 3
    ensures WorkOf(step(m)) == IncHl(WorkOf(m)) && step(m).cpu.pc == p + 4 && step(m).mem == m.mem
  {
    LoopBytes(m.mem, p, sub);
    assert WorkOf(step(m)).pc == p + 4 && WorkOf(step(m)).mem == m.mem;
  }

  lemma At4(step: Mach -> Mach, m: Mach, p: u16, sub: bool, comb: Operation)
    requires Steps(step, sub, comb) && LoopAt(m.mem, p, sub) && m.cpu.pc == p + 4
    ensures WorkOf(step(m)) == IncDe(WorkOf(m)) && step(m).cpu.pc == p + 5 && step(m).mem == m.mem
  {
    LoopBytes(m.mem, p, sub);
    assert WorkOf(step(m)).pc == p + 5 && WorkOf(step(m)).mem == m.mem;
  }

  lemma At5(step: Mach -> Mach, m: Mach, p: u16, sub: bool, comb: Operation)
    requires Steps(step, sub, comb) && LoopAt(m.mem, p, sub) && m.cpu.pc == p + 5
    ensures WorkOf(step(m)) == DjnzOf(WorkOf(m))
  {
    LoopBytes(m.mem, p, sub);
  }

  lemma FirstHalf(step: Mach -> Mach, m: Mach, p: u16, sub: bool, comb: Operation)
    requires Steps(step, sub, comb) && AtLoop(WorkOf(m), p, sub)
    ensures WorkOf(step(step(step(m)))) == StA(Adc(LdA(WorkOf(m)), comb))
  {
    At0(step, m, p, sub, comb);
    At1(step, step(m), p, sub, comb);
    At2(step, step(step(m)), p, sub, comb);
  }

  lemma SecondHalf(step: Mach -> Mach, m: Mach, p: u16, sub: bool, comb: Operation)
    requires Steps(step, sub, comb) && LoopAt(m.mem, p, sub) && m.cpu.pc == p + 3
    ensures WorkOf(step(step(step(m)))) == DjnzOf(IncDe(IncHl(WorkOf(m))))
  {
    At3(step, m, p, sub, comb);
    At4(step, step(m), p, sub, comb);
    At5(step, step(step(m)), p, sub, comb);
  }

  lemma FirstValue(w: Work, p: u16, sub: bool, comb: Operation)
    requires AtLoop(w, p, sub)
    ensures StA(Adc(LdA(w), comb)) == Combined(w, p, comb) && LoopAt(Combined(w, p, comb).mem, p, sub)
  {
    LoopKept(w.mem, p, sub, w.de, Combined(w, p, comb).a);
  }

  lemma BackSeven(p: u16)
    requires p + 7 <= MEM_SIZE
    ensures Wrap(p + 4) == p + 4 && Wrap(p + 5) == p + 5 && Wrap(p + 7) == p + 7 && Wrap(p + 7 - 7) == p
  {
  }

  lemma SecondValue(h: Work, p: u16, sub: bool)
    requires LoopAt(h.mem, p, sub) && h.pc == p + 3
    ensures DjnzOf(IncDe(IncHl(h))) == Counted(h, p)
  {
    LoopBytes(h.mem, p, sub);
    BackSeven(p);
    var w := IncDe(IncHl(h));
    assert w.pc == p + 5 && w.mem == h.mem && w.b == h.b;
    assert B(w.mem, w.pc + 1) == 0xF9 && Disp(0xF9) == -7;
  }

  lemma IterateSix(step: Mach -> Mach, m: Mach, n: nat)
    ensures Iterate(step, m, n + 6) == Iterate(step, step(step(step(step(step(step(m)))))), n)
  {
    var a := step(m);
    var b := step(a);
    var c := step(b);
    var d := step(c);
    var e := step(d);
    assert Iterate(step, m, n + 6) == Iterate(step, a, n + 5) == Iterate(step, b, n + 4) == Iterate(step, c, n + 3);
    assert Iterate(step, c, n + 3) == Iterate(step, d, n + 2) == Iterate(step, e, n + 1);
  }

  lemma OneTurn(step: Mach -> Mach, m: Mach, p: u16, sub: bool, comb: Operation, n: nat) returns (x: Mach)
    requires Steps(step, sub, comb) && AtLoop(WorkOf(m), p, sub)
    ensures WorkOf(x) == Turned(WorkOf(m), p, comb) && Iterate(step, m, n + 6) == Iterate(step, x, n)
  {
    var h := step(step(step(m)));
    FirstHalf(step, m, p, sub, comb);
    FirstValue(WorkOf(m), p, sub, comb);
    SecondHalf(step, h, p, sub, comb);
    SecondValue(WorkOf(h), p, sub);
    x := step(step(step(h)));
    IterateSix(step, m, n);
  }

  // ---- the whole loop -------------------------------------------------------------------------------------------

  /** Numbers of `n` bytes at DE and HL; the first is in RAM, off the loop, and not over bytes still to be read. */
  predicate AddReady(w: Work, p: u16, n: nat, sub: bool) {
    && LoopAt(w.mem, p, sub) && w.pc == p && 1 <= n <= 256 && w.b == n % 256
    && w.rom <= w.de && w.de + n <= MEM_SIZE && w.hl + n <= MEM_SIZE
    && (w.de + n <= p || p + 7 <= w.de) && (w.de <= w.hl || w.hl + n <= w.de)
  }

  predicate Added(w: Work, n: nat, comb: Operation, r: Work)
    requires n > 0 && w.de + n <= MEM_SIZE && w.hl + n <= MEM_SIZE
  {
    var (sum, f) := Chain(comb, w.mem[w.de..w.de + n], w.mem[w.hl..w.hl + n], w.f);
    r.mem == w.mem[..w.de] + sum + w.mem[w.de + n..] && r.f == f && r.b == 0 && r.pc == w.pc + 7 && r.sp == w.sp
  }

  lemma ReadyAgain(w: Work, x: Work, p: u16, n: nat, sub: bool, comb: Operation)
    requires AddReady(w, p, n, sub) && n > 1 && AtLoop(w, p, sub) && x == Turned(w, p, comb)
    ensures AddReady(x, p, n - 1, sub) && x.de == w.de + 1 && x.hl == w.hl + 1 && x.sp == w.sp
  {
    LoopKept(w.mem, p, sub, w.de, x.a);
  }

  /** Bytes past the first of the two numbers are as they were. */
  lemma TailsKept(w: Work, v: byte, n: nat)
    requires n > 1 && w.de + n <= MEM_SIZE && w.hl + n <= MEM_SIZE && (w.de <= w.hl || w.hl + n <= w.de)
    ensures var mem := w.mem[w.de := v];
            && mem[w.de + 1..w.de + n] == w.mem[w.de..w.de + n][1..]
            && mem[w.hl + 1..w.hl + n] == w.mem[w.hl..w.hl + n][1..]
            && mem[..w.de + 1] == w.mem[..w.de] + [v] && mem[w.de + n..] == w.mem[w.de + n..]
  {
  }

  lemma ChainMore(comb: Operation, a: seq<byte>, b: seq<byte>, f: Flags)
    requires |a| == |b| > 1
    ensures var (v, g) := comb(a[0], b[0], f);
            var (rest, h) := Chain(comb, a[1..], b[1..], g);
            Chain(comb, a, b, f) == ([v] + rest, h)
  {
  }

  lemma AddedMore(w: Work, x: Work, p: u16, n: nat, sub: bool, comb: Operation, r: Work)
    requires AddReady(w, p, n, sub) && n > 1 && x == Turned(w, p, comb)
    requires x.de == w.de + 1 && x.hl == w.hl + 1 && x.pc == w.pc && x.sp == w.sp && Added(x, n - 1, comb, r)
    ensures Added(w, n, comb, r)
  {
    var a, b := w.mem[w.de..w.de + n], w.mem[w.hl..w.hl + n];
    assert a[0] == MRead8(w.mem, w.de) && b[0] == MRead8(w.mem, w.hl);
    var (v, g) := comb(a[0], b[0], w.f);
    TailsKept(w, v, n);
    var (rest, h) := Chain(comb, a[1..], b[1..], g);
    ChainMore(comb, a, b, w.f);
    Glued(w.mem[..w.de], v, rest, w.mem[w.de + n..]);
  }

  lemma Glued(front: seq<byte>, v: byte, rest: seq<byte>, back: seq<byte>)
    ensures (front + [v]) + rest + back == front + ([v] + rest) + back
  {
  }

  lemma AddedOne(w: Work, x: Work, p: u16, sub: bool, comb: Operation)
    requires AddReady(w, p, 1, sub) && AtLoop(w, p, sub) && x == Turned(w, p, comb)
    ensures Added(w, 1, comb, x)
  {
    var a, b := w.mem[w.de..w.de + 1], w.mem[w.hl..w.hl + 1];
    assert a[0] == MRead8(w.mem, w.de) && b[0] == MRead8(w.mem, w.hl);
    var (v, g) := comb(a[0], b[0], w.f);
    assert w.mem[w.de := v] == w.mem[..w.de] + [v] + w.mem[w.de + 1..];
  }

  lemma ReadyAt(w: Work, p: u16, n: nat, sub: bool)
    requires AddReady(w, p, n, sub)
    ensures AtLoop(w, p, sub)
  {
  }

  lemma NextTurn(step: Mach -> Mach, m: Mach, p: u16, n: nat, k: nat, sub: bool, comb: Operation) returns (x: Mach)
    requires Steps(step, sub, comb) && AddReady(WorkOf(m), p, n, sub) && k >= 6
    ensures WorkOf(x) == Turned(WorkOf(m), p, comb) && Iterate(step, m, k) == Iterate(step, x, k - 6)
    ensures n > 1 ==> AddReady(WorkOf(x), p, n - 1, sub)
  {
    ReadyAt(WorkOf(m), p, n, sub);
    x := OneTurn(step, m, p, sub, comb, k - 6);
    if n > 1 { ReadyAgain(WorkOf(m), WorkOf(x), p, n, sub, comb); }
  }

  /** All the turns. */
  function Turns(w: Work, p: u16, comb: Operation, n: nat): Work
    requires p + 7 <= MEM_SIZE
    decreases n
  {
    if n == 0 then w else Turns(Turned(w, p, comb), p, comb, n - 1)
  }

  lemma TurnsFirst(w: Work, p: u16, comb: Operation, n: nat, y: Work, r: Work)
    requires p + 7 <= MEM_SIZE && n > 0 && y == Turned(w, p, comb) && r == Turns(y, p, comb, n - 1)
    ensures r == Turns(w, p, comb, n)
  {
  }

  lemma {:induction false} LoopTurns(step: Mach -> Mach, m: Mach, p: u16, n: nat, k: nat, sub: bool, comb: Operation,
                                     r: Mach)
    requires Steps(step, sub, comb) && AddReady(WorkOf(m), p, n, sub) && k == 6 * n && r == Iterate(step, m, k)
    ensures WorkOf(r) == Turns(WorkOf(m), p, comb, n)
    decreases n
  {
    var x := NextTurn(step, m, p, n, k, sub, comb);
    if n > 1 { LoopTurns(step, x, p, n - 1, k - 6, sub, comb, r); }
    TurnsFirst(WorkOf(m), p, comb, n, WorkOf(x), WorkOf(r));
  }

  lemma {:induction false} TurnsAdd(w: Work, p: u16, n: nat, sub: bool, comb: Operation)
    requires AddReady(w, p, n, sub)
    ensures Added(w, n, comb, Turns(w, p, comb, n))
    decreases n
  {
    var x := Turned(w, p, comb);
    ReadyAt(w, p, n, sub);
    if n > 1 {
      ReadyAgain(w, x, p, n, sub, comb);
      TurnsAdd(x, p, n - 1, sub, comb);
      AddedMore(w, x, p, n, sub, comb, Turns(x, p, comb, n - 1));
    } else {
      AddedOne(w, x, p, sub, comb);
    }
  }

  /** The n-byte number at DE became the sum or difference, flags included. */
  ghost predicate Computed(w: Work, r: Work, n: nat, sub: bool)
    requires n > 0 && w.de + n <= MEM_SIZE && w.hl + n <= MEM_SIZE
  {
    var a, b, now := w.mem[w.de..w.de + n], w.mem[w.hl..w.hl + n], r.mem[w.de..w.de + n];
    && r.mem == w.mem[..w.de] + now + w.mem[w.de + n..] && r.pc == w.pc + 7 && r.b == 0 && r.sp == w.sp
    && if sub then Differs(a, b, Carry(w.f), now, r.f) else Sums(a, b, Carry(w.f), now, r.f)
  }

  lemma Middle(mem: Mem, sum: seq<byte>, de: nat, n: nat)
    requires de + n <= MEM_SIZE && |sum| == n
    ensures (mem[..de] + sum + mem[de + n..])[de..de + n] == sum
  {
  }

  lemma ChainComputes(a: seq<byte>, b: seq<byte>, f: Flags, sub: bool)
    requires |a| == |b| > 0
    ensures var (r, g) := Chain(Combine(sub), a, b, f);
            if sub then Differs(a, b, Carry(f), r, g) else Sums(a, b, Carry(f), r, g)
  {
    if sub { ChainSubtracts(a, b, f); } else { ChainAdds(a, b, f); }
    SubChainSubtracts(a, b, Carry(f));
    AddChainSums(a, b, Carry(f));
  }

  lemma AddedComputes(w: Work, r: Work, n: nat, sub: bool)
    requires n > 0 && w.de + n <= MEM_SIZE && w.hl + n <= MEM_SIZE && Added(w, n, Combine(sub), r)
    ensures Computed(w, r, n, sub)
  {
    var a, b := w.mem[w.de..w.de + n], w.mem[w.hl..w.hl + n];
    Middle(w.mem, Chain(Combine(sub), a, b, w.f).0, w.de, n);
    ChainComputes(a, b, w.f, sub);
  }

  /**
   Main result: stepping the loop to its end replaces the n-byte number at DE by its sum with, or
   difference from, the one at HL and the carry; the last carry is the carry or borrow out, and the last
   overflow flag tells whether the signed result fits n bytes. Nothing else in memory changes.
   */
  lemma LoopAdds(m: Mach, p: u16, n: nat, sub: bool)
    requires AddReady(WorkOf(m), p, n, sub)
    ensures Computed(WorkOf(m), WorkOf(Iterate(Step, m, 6 * n)), n, sub)
  {
    StepSteps(sub);
    LoopTurns(Step, m, p, n, 6 * n, sub, Combine(sub), Iterate(Step, m, 6 * n));
    TurnsAdd(WorkOf(m), p, n, sub, Combine(sub));
    AddedComputes(WorkOf(m), WorkOf(Iterate(Step, m, 6 * n)), n, sub);
  }
}
