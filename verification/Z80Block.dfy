/** Repeating block instructions, seen as the loops they are. */
module Z80Block {
  import opened Machine
  import opened Z80Alu
  import opened Z80
  import opened Z80Exec

  /** `n` steps of a machine. */
  function Iterate(step: Mach -> Mach, m: Mach, n: nat): Mach
    decreases n
  {
    if n == 0 then m else Iterate(step, step(m), n - 1)
  }

  /** What the repeating instructions work on. */
  datatype View = View(
    mem: Mem, rom: u16, pc: u16, sp: u16, hl: u16, de: u16, bc: u16, a: byte, z: bool, pv: bool, cycles: nat)

  function ViewOf(m: Mach): View {
    var c := m.cpu;
    View(m.mem, m.rom, c.pc, c.sp, Hl(c), De(c), Bc(c), c.regs[RA], c.f.z, c.f.pv, c.cycles)
  }

  predicate At(mem: Mem, pc: u16, op: byte) {
    pc + 1 < MEM_SIZE && mem[pc] == 0xED && mem[pc + 1] == op
  }

  // ---- LDIR --------------------------------------------------------------------------------------

  /** `n` bytes copied one after the other, upwards. */
  function CopyUp(mem: Mem, from: nat, to: nat, n: nat): (r: Mem)
    requires from + n <= MEM_SIZE && to + n <= MEM_SIZE
    decreases n
  {
    if n == 0 then mem else CopyUp(mem[to := mem[from]], from + 1, to + 1, n - 1)
  }

  lemma {:induction false} CopyUpElsewhere(mem: Mem, from: nat, to: nat, n: nat, a: nat)
    requires from + n <= MEM_SIZE && to + n <= MEM_SIZE && a < MEM_SIZE && !(to <= a < to + n)
    ensures CopyUp(mem, from, to, n)[a] == mem[a]
    decreases n
  {
    if n > 0 { CopyUpElsewhere(mem[to := mem[from]], from + 1, to + 1, n - 1, a); }
  }

  /**
   Every byte of the destination. Copying towards lower addresses moves the source unharmed; copying
   towards higher ones, an overlapping source is overwritten first, so its start is propagated.
   */
  lemma {:induction false} CopyUpByte(mem: Mem, from: nat, to: nat, n: nat, i: nat)
    requires from + n <= MEM_SIZE && to + n <= MEM_SIZE && i < n
    ensures var r := CopyUp(mem, from, to, n);
            r[to + i] == if from < to then r[from + i] else mem[from + i]
    decreases n
  {
    var mem' := mem[to := mem[from]];
    if i == 0 {
      CopyUpElsewhere(mem', from + 1, to + 1, n - 1, to);
      if from < to { CopyUpElsewhere(mem', from + 1, to + 1, n - 1, from); }
    } else {
      CopyUpByte(mem', from + 1, to + 1, n - 1, i - 1);
    }
  }

  /** Bytes of a register file after a block step. */
  function Moved(c: Cpu, hl: u16, de: u16, bc: u16): Cpu {
    SetBc(SetDe(SetHl(c, hl), de), bc)
  }

  lemma MovedPairs(c: Cpu, hl: u16, de: u16, bc: u16)
    ensures var r := Moved(c, hl, de, bc);
            Hl(r) == hl && De(r) == de && Bc(r) == bc && r.regs[RA] == c.regs[RA] && r == c.(regs := r.regs)
  {
  }

  /** LDIR, CPIR, LDDR and CPDR. */
  predicate Repeating(op: byte) { op in {0xB0, 0xB1, 0xB8, 0xB9} }

  lemma DecodeBlock(mem: Mem, pc: u16, op: byte)
    requires At(mem, pc, op) && Repeating(op)
    ensures Decode(mem, pc) == Fetched(Block(op / 8 % 8, op % 8), 2)
  {
    assert B(mem, pc) == 0xED && B(mem, pc + 1) == op;
    assert DecodeEd(op, mem, pc + 2) == Fetched(Block(op / 8 % 8, op % 8), 2);
  }

  lemma BackTwo(pc: u16)
    ensures Wrap(Wrap(pc + 2) - 2) == pc
  {
  }

  lemma ExecIsBlockOp(m: Mach, i: Instr)
    requires i.Block?
    ensures Exec(m, i) == BlockOp(m, i.y, i.z)
  {
  }

  lemma ExecLdir(m: Mach)
    ensures Exec(m, Block(6, 0)) == BlockLoad(m, false, true)
  {
    ExecIsBlockOp(m, Block(6, 0));
  }

  lemma ExecLddr(m: Mach)
    ensures Exec(m, Block(7, 0)) == BlockLoad(m, true, true)
  {
    ExecIsBlockOp(m, Block(7, 0));
  }

  lemma ExecCpir(m: Mach)
    ensures Exec(m, Block(6, 1)) == BlockCompare(m, false, true)
  {
    ExecIsBlockOp(m, Block(6, 1));
  }

  lemma ExecCpdr(m: Mach)
    ensures Exec(m, Block(7, 1)) == BlockCompare(m, true, true)
  {
    ExecIsBlockOp(m, Block(7, 1));
  }

  lemma StepBlock(m: Mach, op: byte, y: int, z: int)
    requires At(m.mem, m.cpu.pc, op) && Repeating(op) && y == op / 8 % 8 && z == op % 8
    ensures Step(m) == Exec(Fetching(m, 2), Block(y, z))
  {
    DecodeBlock(m.mem, m.cpu.pc, op);
  }

  lemma StepIsLdir(m: Mach)
    requires At(m.mem, m.cpu.pc, 0xB0)
    ensures Step(m) == BlockLoad(Fetching(m, 2), false, true)
  {
    StepBlock(m, 0xB0, 6, 0);
    ExecLdir(Fetching(m, 2));
  }

  lemma StepIsLddr(m: Mach)
    requires At(m.mem, m.cpu.pc, 0xB8)
    ensures Step(m) == BlockLoad(Fetching(m, 2), true, true)
  {
    StepBlock(m, 0xB8, 7, 0);
    ExecLddr(Fetching(m, 2));
  }

  lemma StepIsCpir(m: Mach)
    requires At(m.mem, m.cpu.pc, 0xB1)
    ensures Step(m) == BlockCompare(Fetching(m, 2), false, true)
  {
    StepBlock(m, 0xB1, 6, 1);
    ExecCpir(Fetching(m, 2));
  }

  lemma StepIsCpdr(m: Mach)
    requires At(m.mem, m.cpu.pc, 0xB9)
    ensures Step(m) == BlockCompare(Fetching(m, 2), true, true)
  {
    StepBlock(m, 0xB9, 7, 1);
    ExecCpdr(Fetching(m, 2));
  }

  predicate LdirReady(v: View, n: nat) {
    && At(v.mem, v.pc, 0xB0) && v.bc == n > 0 && v.rom <= v.de && v.hl + n <= MEM_SIZE && v.de + n <= MEM_SIZE
    && (v.pc + 1 < v.de || v.de + n <= v.pc)
  }

  /** One round: a byte moves, the counters move on, and the instruction repeats unless BC ran out. */
  predicate LoadRound(v: View, w: View, down: bool) {
    && v.hl < MEM_SIZE && v.de < MEM_SIZE
    && w.mem == v.mem[v.de := v.mem[v.hl]] && w.rom == v.rom
    && w.hl == Step16(v.hl, down) && w.de == Step16(v.de, down) && w.bc == Wrap(v.bc - 1) && w.a == v.a && w.sp == v.sp
    && (if w.bc != 0 then w.pc == v.pc && w.cycles == v.cycles + 21
        else w.pc == v.pc + 2 && w.cycles == v.cycles + 16 && !w.pv)
  }

  lemma LoadRegs(c: Cpu, down: bool, bc: u16)
    ensures var r := SetBc(SetDe(SetHl(c, Step16(Hl(c), down)), Step16(De(c), down)), bc);
            && Hl(r) == Step16(Hl(c), down) && De(r) == Step16(De(c), down) && Bc(r) == bc
            && r.regs[RA] == c.regs[RA] && r == c.(regs := r.regs)
  {
    MovedPairs(c, Step16(Hl(c), down), Step16(De(c), down), bc);
  }

  /** The tail of a repeating instruction fetched at `pc` moves nothing but PC and the cycles. */
  lemma AgainOrOn(c: Cpu, pc: u16, again: bool)
    requires c.pc == Wrap(pc + 2) && pc + 1 < MEM_SIZE
    ensures var r := Again(c, again);
            && r == c.(pc := r.pc, cycles := r.cycles)
            && r.pc == (if again then pc else pc + 2) && r.cycles == c.cycles + if again then 21 else 16
  {
    BackTwo(pc);
  }

  lemma LoadMoves(m: Mach, r: Mach, down: bool)
    requires m.cpu.pc + 1 < MEM_SIZE && m.rom <= De(m.cpu) < MEM_SIZE && Hl(m.cpu) < MEM_SIZE
    requires r == BlockLoad(Fetching(m, 2), down, true)
    ensures LoadRound(ViewOf(m), ViewOf(r), down)
  {
    var c, bc := Fetching(m, 2).cpu, Wrap(Bc(m.cpu) - 1);
    var c1 := SetBc(SetDe(SetHl(c, Step16(Hl(c), down)), Step16(De(c), down)), bc);
    LoadRegs(c, down, bc);
    var c2 := c1.(f := c.f.(pv := bc != 0));
    AgainOrOn(c2, m.cpu.pc, bc != 0);
    assert r.cpu == Again(c2, bc != 0) && Bc(c) == Bc(m.cpu);
    assert r.mem == m.mem[De(m.cpu) := m.mem[Hl(m.cpu)]];
  }

  lemma LoadOnce(m: Mach, down: bool)
    requires At(m.mem, m.cpu.pc, if down then 0xB8 else 0xB0)
    requires m.rom <= De(m.cpu) < MEM_SIZE && Hl(m.cpu) < MEM_SIZE
    ensures LoadRound(ViewOf(m), ViewOf(Step(m)), down)
  {
    if down { StepIsLddr(m); } else { StepIsLdir(m); }
    LoadMoves(m, Step(m), down);
  }

  ghost predicate CopiedUp(v: View, n: nat, r: View)
    requires v.hl + n <= MEM_SIZE && v.de + n <= MEM_SIZE
  {
    && r.mem == CopyUp(v.mem, v.hl, v.de, n)
    && r.bc == 0 && r.hl == v.hl + n && r.de == v.de + n && r.a == v.a && r.sp == v.sp
    && r.pc == v.pc + 2 && r.cycles == v.cycles + 21 * (n - 1) + 16 && !r.pv
  }

  lemma CopiedUpMore(v: View, w: View, n: nat, r: View)
    requires LdirReady(v, n) && n > 1 && LoadRound(v, w, false)
    ensures LdirReady(w, n - 1) && (CopiedUp(w, n - 1, r) ==> CopiedUp(v, n, r))
  {
  }

  lemma {:induction false} LdirLoop(step: Mach -> Mach, m: Mach, n: nat)
    requires LdirReady(ViewOf(m), n)
    requires forall x, k :: LdirReady(ViewOf(x), k) ==> LoadRound(ViewOf(x), ViewOf(step(x)), false)
    ensures CopiedUp(ViewOf(m), n, ViewOf(Iterate(step, m, n)))
    decreases n
  {
    var x := step(m);
    assert LoadRound(ViewOf(m), ViewOf(x), false);
    if n > 1 {
      CopiedUpMore(ViewOf(m), ViewOf(x), n, ViewOf(Iterate(step, x, n - 1)));
      LdirLoop(step, x, n - 1);
    } else {
      assert Iterate(step, x, 0) == x;
    }
  }

  /** Main result: LDIR, stepped to its end, is the upward copy of BC bytes. */
  lemma LdirCopies(m: Mach, n: nat)
    requires LdirReady(ViewOf(m), n)
    ensures CopiedUp(ViewOf(m), n, ViewOf(Iterate(Step, m, n)))
  {
    forall x, k | LdirReady(ViewOf(x), k) ensures LoadRound(ViewOf(x), ViewOf(Step(x)), false) { LoadOnce(x, false); }
    LdirLoop(Step, m, n);
  }

  // ---- LDDR --------------------------------------------------------------------------------------

  /** `n` bytes copied one after the other, downwards from `from` and `to`. */
  function CopyDown(mem: Mem, from: int, to: int, n: nat): (r: Mem)
    requires n - 1 <= from < MEM_SIZE && n - 1 <= to < MEM_SIZE
    decreases n
  {
    if n == 0 then mem
    else if n == 1 then mem[to := mem[from]]
    else CopyDown(mem[to := mem[from]], from - 1, to - 1, n - 1)
  }

  lemma {:induction false} CopyDownElsewhere(mem: Mem, from: int, to: int, n: nat, a: nat)
    requires n - 1 <= from < MEM_SIZE && n - 1 <= to < MEM_SIZE && a < MEM_SIZE && !(to - n < a <= to)
    ensures CopyDown(mem, from, to, n)[a] == mem[a]
    decreases n
  {
    if n > 1 { CopyDownElsewhere(mem[to := mem[from]], from - 1, to - 1, n - 1, a); }
  }

  /** Copying towards higher addresses moves the source unharmed; towards lower ones its end is propagated. */
  lemma {:induction false} CopyDownByte(mem: Mem, from: int, to: int, n: nat, i: nat)
    requires n - 1 <= from < MEM_SIZE && n - 1 <= to < MEM_SIZE && i < n
    ensures var r := CopyDown(mem, from, to, n);
            r[to - i] == if from > to then r[from - i] else mem[from - i]
    decreases n
  {
    var mem' := mem[to := mem[from]];
    if n > 1 {
      if i == 0 {
        CopyDownElsewhere(mem', from - 1, to - 1, n - 1, to);
        if from > to { CopyDownElsewhere(mem', from - 1, to - 1, n - 1, from); }
      } else {
        CopyDownByte(mem', from - 1, to - 1, n - 1, i - 1);
      }
    }
  }

  predicate LddrReady(v: View, n: nat) {
    && At(v.mem, v.pc, 0xB8) && v.bc == n > 0 && v.rom + n - 1 <= v.de < MEM_SIZE && n - 1 <= v.hl < MEM_SIZE
    && (v.pc + n < v.de || v.de < v.pc)
  }

  ghost predicate CopiedDown(v: View, n: nat, r: View)
    requires n - 1 <= v.hl < MEM_SIZE && n - 1 <= v.de < MEM_SIZE
  {
    && r.mem == CopyDown(v.mem, v.hl, v.de, n)
    && r.bc == 0 && r.hl == Wrap(v.hl - n) && r.de == Wrap(v.de - n) && r.a == v.a && r.sp == v.sp
    && r.pc == v.pc + 2 && r.cycles == v.cycles + 21 * (n - 1) + 16 && !r.pv
  }

  lemma CopiedDownMore(v: View, w: View, n: nat, r: View)
    requires LddrReady(v, n) && n > 1 && LoadRound(v, w, true)
    ensures LddrReady(w, n - 1) && (CopiedDown(w, n - 1, r) ==> CopiedDown(v, n, r))
  {
    assert w.hl == v.hl - 1 && w.de == v.de - 1;
  }

  lemma {:induction false} LddrLoop(step: Mach -> Mach, m: Mach, n: nat)
    requires LddrReady(ViewOf(m), n)
    requires forall x, k :: LddrReady(ViewOf(x), k) ==> LoadRound(ViewOf(x), ViewOf(step(x)), true)
    ensures CopiedDown(ViewOf(m), n, ViewOf(Iterate(step, m, n)))
    decreases n
  {
    var x := step(m);
    assert LoadRound(ViewOf(m), ViewOf(x), true);
    if n > 1 {
      CopiedDownMore(ViewOf(m), ViewOf(x), n, ViewOf(Iterate(step, x, n - 1)));
      LddrLoop(step, x, n - 1);
    } else {
      assert Iterate(step, x, 0) == x;
    }
  }

  /** Main result: LDDR, stepped to its end, is the downward copy of BC bytes. */
  lemma LddrCopies(m: Mach, n: nat)
    requires LddrReady(ViewOf(m), n)
    ensures CopiedDown(ViewOf(m), n, ViewOf(Iterate(Step, m, n)))
  {
    forall x, k | LddrReady(ViewOf(x), k) ensures LoadRound(ViewOf(x), ViewOf(Step(x)), true) { LoadOnce(x, true); }
    LddrLoop(Step, m, n);
  }

  // ---- CPIR -------------------------------------------------------------------------------------------

  /** The first of the next `n` bytes from `a` on that equals `v`, counted from 0; `n` if there is none. */
  function FirstMatch(mem: Mem, a: nat, n: nat, v: byte): (k: nat)
    requires a + n <= MEM_SIZE
    ensures k <= n && (k < n ==> mem[a + k] == v)
    ensures forall j :: a <= j < a + k ==> mem[j] != v
    decreases n
  {
    if n == 0 || mem[a] == v then 0 else 1 + FirstMatch(mem, a + 1, n - 1, v)
  }

  predicate CpirReady(v: View, n: nat) { At(v.mem, v.pc, 0xB1) && v.bc == n > 0 && v.hl + n <= MEM_SIZE }

  /** One round: a byte is compared, and the instruction repeats unless it matches or BC ran out. */
  predicate CompareRound(v: View, w: View, down: bool) {
    && v.hl < MEM_SIZE && w.mem == v.mem
    && w.hl == Step16(v.hl, down) && w.bc == Wrap(v.bc - 1) && w.de == v.de && w.a == v.a
    && (w.z <==> v.mem[v.hl] == v.a)
    && (if w.bc != 0 && !w.z then w.pc == v.pc && w.cycles == v.cycles + 21
        else w.pc == v.pc + 2 && w.cycles == v.cycles + 16)
  }

  lemma ComparedPairs(c: Cpu, hl: u16, bc: u16)
    ensures var r := SetBc(SetHl(c, hl), bc);
            Hl(r) == hl && De(r) == De(c) && Bc(r) == bc && r.regs[RA] == c.regs[RA] && r == c.(regs := r.regs)
  {
  }

  lemma CompareZero(a: byte, b: byte)
    ensures Cp8(a, b).z <==> a == b
  {
  }

  lemma CompareMoves(m: Mach, r: Mach, down: bool)
    requires m.cpu.pc + 1 < MEM_SIZE && Hl(m.cpu) < MEM_SIZE
    requires r == BlockCompare(Fetching(m, 2), down, true)
    ensures CompareRound(ViewOf(m), ViewOf(r), down)
  {
    var c, bc := Fetching(m, 2).cpu, Wrap(Bc(m.cpu) - 1);
    var f := Cp8(c.regs[RA], m.mem[Hl(m.cpu)]);
    CompareZero(c.regs[RA], m.mem[Hl(m.cpu)]);
    ComparedPairs(c, Step16(Hl(c), down), bc);
    var c2 := SetBc(SetHl(c, Step16(Hl(c), down)), bc).(f := f.(pv := bc != 0));
    AgainOrOn(c2, m.cpu.pc, bc != 0 && !f.z);
    assert r.cpu == Again(c2, bc != 0 && !f.z);
  }

  lemma CompareOnce(m: Mach, down: bool)
    requires At(m.mem, m.cpu.pc, if down then 0xB9 else 0xB1) && Hl(m.cpu) < MEM_SIZE
    ensures CompareRound(ViewOf(m), ViewOf(Step(m)), down)
  {
    if down { StepIsCpdr(m); } else { StepIsCpir(m); }
    CompareMoves(m, Step(m), down);
  }

  /** How many rounds a search takes whose first match is `k`. */
  function Rounds(k: nat, n: nat): nat { if k < n then k + 1 else n }

  /** `r` is what a search of `n` bytes from `v` on ends with, the first match being `k`. */
  predicate Searched(v: View, n: nat, k: nat, r: View) {
    && r.mem == v.mem && r.bc == n - Rounds(k, n) && r.de == v.de && (r.z <==> k < n) && r.pc == v.pc + 2
    && r.cycles == v.cycles + 21 * (Rounds(k, n) - 1) + 16
  }

  ghost predicate Found(step: Mach -> Mach, m: Mach, n: nat)
    requires Hl(m.cpu) + n <= MEM_SIZE
  {
    var v := ViewOf(m);
    var k := FirstMatch(v.mem, v.hl, n, v.a);
    var r := ViewOf(Iterate(step, m, Rounds(k, n)));
    Searched(v, n, k, r) && r.hl == v.hl + Rounds(k, n)
  }

  /** A round that does not match goes on with one byte less. */
  lemma SearchedMore(v: View, w: View, n: nat, k: nat, r: View, down: bool)
    requires n > 1 && v.bc == n && CompareRound(v, w, down) && !w.z && k < n && Searched(w, n - 1, k, r)
    ensures Searched(v, n, k + 1, r) && Rounds(k + 1, n) == 1 + Rounds(k, n - 1)
  {
  }

  lemma SearchedOnce(v: View, w: View, n: nat, down: bool)
    requires n > 0 && v.bc == n && CompareRound(v, w, down) && (n == 1 || w.z)
    ensures var k := if w.z then 0 else 1; Searched(v, n, k, w) && Rounds(k, n) == 1
  {
  }

  lemma IterateFirst(step: Mach -> Mach, m: Mach, x: Mach, n: nat)
    requires x == step(m)
    ensures Iterate(step, m, n + 1) == Iterate(step, x, n) && Iterate(step, m, 1) == x
  {
    assert Iterate(step, x, 0) == x;
  }

  lemma FoundLater(step: Mach -> Mach, m: Mach, x: Mach, n: nat)
    requires CpirReady(ViewOf(m), n) && n > 1 && x == step(m) && CompareRound(ViewOf(m), ViewOf(x), false) && !x.cpu.f.z
    requires Hl(x.cpu) + n - 1 <= MEM_SIZE && Found(step, x, n - 1)
    ensures Found(step, m, n)
  {
    var v, w := ViewOf(m), ViewOf(x);
    assert w.hl == v.hl + 1;
    var k := FirstMatch(w.mem, w.hl, n - 1, w.a);
    assert FirstMatch(v.mem, v.hl, n, v.a) == k + 1;
    SearchedMore(v, w, n, k, ViewOf(Iterate(step, x, Rounds(k, n - 1))), false);
    IterateFirst(step, m, x, Rounds(k, n - 1));
  }

  lemma FoundNow(step: Mach -> Mach, m: Mach, x: Mach, n: nat)
    requires CpirReady(ViewOf(m), n) && x == step(m) && CompareRound(ViewOf(m), ViewOf(x), false)
    requires n == 1 || x.cpu.f.z
    ensures Found(step, m, n)
  {
    var v, w := ViewOf(m), ViewOf(x);
    SearchedOnce(v, w, n, false);
    IterateFirst(step, m, x, 0);
    assert FirstMatch(v.mem, v.hl, n, v.a) == if w.z then 0 else 1;
  }

  lemma NextReady(v: View, w: View, n: nat)
    requires CpirReady(v, n) && n > 1 && CompareRound(v, w, false) && !w.z
    ensures CpirReady(w, n - 1)
  {
  }

  lemma {:induction false} CpirLoop(step: Mach -> Mach, m: Mach, n: nat)
    requires CpirReady(ViewOf(m), n)
    requires forall x, k :: CpirReady(ViewOf(x), k) ==> CompareRound(ViewOf(x), ViewOf(step(x)), false)
    ensures Found(step, m, n)
    decreases n
  {
    var x := step(m);
    assert CompareRound(ViewOf(m), ViewOf(x), false);
    if n > 1 && !x.cpu.f.z {
      NextReady(ViewOf(m), ViewOf(x), n);
      CpirLoop(step, x, n - 1);
      FoundLater(step, m, x, n);
    } else {
      FoundNow(step, m, x, n);
    }
  }

  /** Main result: CPIR, stepped to its end, finds the first match among BC bytes or reports none. */
  lemma CpirSearches(m: Mach, n: nat)
    requires CpirReady(ViewOf(m), n)
    ensures Found(Step, m, n)
  {
    forall x, k | CpirReady(ViewOf(x), k) ensures CompareRound(ViewOf(x), ViewOf(Step(x)), false) {
      CompareOnce(x, false);
    }
    CpirLoop(Step, m, n);
  }

  // ---- CPDR -------------------------------------------------------------------------------------------

  /** The first match among `n` bytes from `a` down, counted from 0; `n` if there is none. */
  function LastMatch(mem: Mem, a: int, n: nat, v: byte): (k: nat)
    requires n - 1 <= a < MEM_SIZE
    ensures k <= n && (k < n ==> mem[a - k] == v)
    ensures forall j :: a - k < j <= a ==> mem[j] != v
    decreases n
  {
    if n == 0 || mem[a] == v then 0 else if n == 1 then 1 else 1 + LastMatch(mem, a - 1, n - 1, v)
  }

  predicate CpdrReady(v: View, n: nat) { At(v.mem, v.pc, 0xB9) && v.bc == n > 0 && n - 1 <= v.hl < MEM_SIZE }

  ghost predicate FoundDown(step: Mach -> Mach, m: Mach, n: nat)
    requires n - 1 <= Hl(m.cpu) < MEM_SIZE
  {
    var v := ViewOf(m);
    var k := LastMatch(v.mem, v.hl, n, v.a);
    var r := ViewOf(Iterate(step, m, Rounds(k, n)));
    Searched(v, n, k, r) && r.hl == Wrap(v.hl - Rounds(k, n))
  }

  lemma FoundLower(step: Mach -> Mach, m: Mach, x: Mach, n: nat)
    requires CpdrReady(ViewOf(m), n) && n > 1 && x == step(m) && CompareRound(ViewOf(m), ViewOf(x), true) && !x.cpu.f.z
    requires n - 2 <= Hl(x.cpu) < MEM_SIZE && FoundDown(step, x, n - 1)
    ensures FoundDown(step, m, n)
  {
    var v, w := ViewOf(m), ViewOf(x);
    assert w.hl == v.hl - 1;
    var k := LastMatch(w.mem, w.hl, n - 1, w.a);
    assert LastMatch(v.mem, v.hl, n, v.a) == k + 1;
    SearchedMore(v, w, n, k, ViewOf(Iterate(step, x, Rounds(k, n - 1))), true);
    IterateFirst(step, m, x, Rounds(k, n - 1));
  }

  lemma FoundHere(step: Mach -> Mach, m: Mach, x: Mach, n: nat)
    requires CpdrReady(ViewOf(m), n) && x == step(m) && CompareRound(ViewOf(m), ViewOf(x), true)
    requires n == 1 || x.cpu.f.z
    ensures FoundDown(step, m, n)
  {
    var v, w := ViewOf(m), ViewOf(x);
    SearchedOnce(v, w, n, true);
    IterateFirst(step, m, x, 0);
    assert LastMatch(v.mem, v.hl, n, v.a) == if w.z then 0 else 1;
  }

  lemma LowerReady(v: View, w: View, n: nat)
    requires CpdrReady(v, n) && n > 1 && CompareRound(v, w, true) && !w.z
    ensures CpdrReady(w, n - 1)
  {
  }

  lemma {:induction false} CpdrLoop(step: Mach -> Mach, m: Mach, n: nat)
    requires CpdrReady(ViewOf(m), n)
    requires forall x, k :: CpdrReady(ViewOf(x), k) ==> CompareRound(ViewOf(x), ViewOf(step(x)), true)
    ensures FoundDown(step, m, n)
    decreases n
  {
    var x := step(m);
    assert CompareRound(ViewOf(m), ViewOf(x), true);
    if n > 1 && !x.cpu.f.z {
      LowerReady(ViewOf(m), ViewOf(x), n);
      CpdrLoop(step, x, n - 1);
      FoundLower(step, m, x, n);
    } else {
      FoundHere(step, m, x, n);
    }
  }

  /** Main result: CPDR, stepped to its end, finds the last match at or below HL among BC bytes, or reports none. */
  lemma CpdrSearches(m: Mach, n: nat)
    requires CpdrReady(ViewOf(m), n)
    ensures FoundDown(Step, m, n)
  {
    forall x, k | CpdrReady(ViewOf(x), k) ensures CompareRound(ViewOf(x), ViewOf(Step(x)), true) {
      CompareOnce(x, true);
    }
    CpdrLoop(Step, m, n);
  }
}
