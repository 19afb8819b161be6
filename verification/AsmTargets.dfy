/**
 Jumps to labels, in the assembled output: what the emulator decodes at a jump's address goes to the
 address its label stands for, and so, when no line lost a byte, to the code after the label.
 */
module AsmTargets {
  import opened Machine
  import opened Asm
  import opened AsmPasses
  import opened AsmDecode
  import opened AsmMeaning
  import opened AsmSweep
  import Z80
  import Z80Exec
  import Z80Stack
  import AsmWords
  import AsmRuns

  /** The program assembles without an error, and memory holds its output. */
  predicate Loaded(mem: Z80.Mem, lines: seq<Line>, base: u16) {
    ErrorFree(lines, base) && Holds(mem, base, Pass1(lines, base, Pass0(lines, base, []).labels).bytes)
  }

  /** The code of line `j` is found in memory where it was emitted. */
  lemma {:induction false} LinePlaced(mem: Z80.Mem, lines: seq<Line>, pc: u16, all: seq<Entry>, j: nat)
    requires Pass1(lines, pc, all).Passed? && Holds(mem, pc, Pass1(lines, pc, all).bytes) && j < |lines|
    ensures Pass1(lines[..j], pc, all).Passed?
    ensures var at := Pass1(lines[..j], pc, all).pc;
            && at == pc + |Pass1(lines[..j], pc, all).bytes|
            && Line1(lines[j], at, all).Passed? && Holds(mem, at, Line1(lines[j], at, all).bytes)
    decreases j
  {
    var p := Line1(lines[0], pc, all);
    var rest := Pass1(lines[1..], p.pc, all);
    FirstLine(lines, pc, all, j);
    HoldsParts(mem, pc, p.bytes, rest.bytes);
    if j > 0 {
      NoWrap(pc, |p.bytes|);
      LinePlaced(mem, lines[1..], p.pc, all, j - 1);
    }
  }

  lemma FirstLine(lines: seq<Line>, pc: u16, all: seq<Entry>, j: nat)
    requires Pass1(lines, pc, all).Passed? && j < |lines|
    ensures var p := Line1(lines[0], pc, all);
            && p.Passed? && p.pc == Advance(pc, |p.bytes|) && Pass1(lines[1..], p.pc, all).Passed?
            && Pass1(lines, pc, all).bytes == p.bytes + Pass1(lines[1..], p.pc, all).bytes
            && (j == 0 ==> Pass1(lines[..j], pc, all) == Passed(pc, all, []))
            && (j > 0 ==>
                  var rest := Pass1(lines[1..][..j - 1], p.pc, all);
                  rest.Passed? ==> Pass1(lines[..j], pc, all) == Passed(rest.pc, all, p.bytes + rest.bytes))
  {
    if j > 0 { assert lines[..j][0] == lines[0] && lines[..j][1..] == lines[1..][..j - 1]; }
  }

  lemma NoWrap(pc: u16, n: nat)
    requires pc + n < 0x1_0000
    ensures Advance(pc, n) == pc + n
  {
  }

  lemma CodeFound(mem: Z80.Mem, l: Line, at: u16, all: seq<Entry>)
    requires l.Ins? && l.op != RST && Line1(l, at, all).Passed? && Holds(mem, at, Line1(l, at, all).bytes)
    ensures Gen(true, at, l.op, Resolve(all, l.a1), Resolve(all, l.a2)).Code?
    ensures Z80.Decode(mem, at).i == Encoded(at, l.op, Resolve(all, l.a1), Resolve(all, l.a2))
  {
    LineDecodes(mem, at, l.op, Resolve(all, l.a1), Resolve(all, l.a2));
  }

  /** At the address of an instruction line, the emulator decodes what the assembler picked for it. */
  lemma LineFound(mem: Z80.Mem, lines: seq<Line>, base: u16, all: seq<Entry>, j: nat)
    requires Pass1(lines, base, all).Passed? && Holds(mem, base, Pass1(lines, base, all).bytes)
    requires j < |lines| && lines[j].Ins? && lines[j].op != RST
    ensures Pass1(lines[..j], base, all).Passed?
    ensures var (at, l) := (Emitted(lines, base, all, j), lines[j]);
            && Gen(true, at, l.op, Resolve(all, l.a1), Resolve(all, l.a2)).Code?
            && Z80.Decode(mem, at).i == Encoded(at, l.op, Resolve(all, l.a1), Resolve(all, l.a2))
  {
    LinePlaced(mem, lines, base, all, j);
    var at := Pass1(lines[..j], base, all).pc;
    NoWrap(base, |Pass1(lines[..j], base, all).bytes|);
    CodeFound(mem, lines[j], at, all);
  }

  /** What a label's name becomes: its address, or nothing when that is 0xFFFF and reads as "not found". */
  lemma LabelResolved(all: seq<Entry>, n: Name, to: u16)
    requires LabelAddr(all, n) == Int16(to)
    ensures var r := Resolve(all, Bare(n));
            && r != None && U16(Strtol(r)) == (if to == 0xFFFF then 0 else to)
            && (to != 0xFFFF ==> r == Num(Int16(to)))
  {
  }

  /** A condition is no label. */
  lemma ConditionKept(all: seq<Entry>, c: Operand)
    requires Named(all) && CondNo(c) != -1
    ensures Resolve(all, c) == c
  {
    TablesAgree(c);
    AddrOf(all, c.n);
  }

  /** The address the label defined at line `k` stands for. */
  function Stands(lines: seq<Line>, base: u16, k: nat): u16
    requires ErrorFree(lines, base) && Defines(lines, k)
    requires Pass1(lines[..k], base, Pass0(lines, base, []).labels).Passed?
  {
    var all := Pass0(lines, base, []).labels;
    Advance(Emitted(lines, base, all, k), Lost(lines[..k], all))
  }

  datatype Jump = Plain(op: Op) | Conditional(op: Op, c: Operand)

  /** A jump of that kind to the label `n`. */
  function JumpLine(b: Jump, n: Name): Line {
    match b
    case Plain(op) => Ins(op, Bare(n), None)
    case Conditional(op, c) => Ins(op, c, Bare(n))
  }

  /** JP and CALL, with or without a condition, to the address `to`. */
  function AbsoluteJump(b: Jump, to: u16): Z80.Instr {
    match b
    case Plain(op) => if op == JP then Z80.Jp(to) else Z80.Call(to)
    case Conditional(op, c) => if op == JP then Z80.JpIf(CondNo(c), to) else Z80.CallIf(CondNo(c), to)
  }

  lemma PlainEncoded(all: seq<Entry>, at: u16, op: Op, n: Name, to: u16)
    requires Named(all) && op in {JP, CALL} && LabelAddr(all, n) == Int16(to)
    ensures Encoded(at, op, Resolve(all, Bare(n)), None) == AbsoluteJump(Plain(op), if to == 0xFFFF then 0 else to)
  {
    LabelResolved(all, n, to);
    AddrOf(all, n);
  }

  lemma ConditionalEncoded(all: seq<Entry>, at: u16, op: Op, c: Operand, n: Name, to: u16)
    requires op in {JP, CALL} && CondNo(c) != -1 && LabelAddr(all, n) == Int16(to)
    ensures Encoded(at, op, c, Resolve(all, Bare(n)))
         == AbsoluteJump(Conditional(op, c), if to == 0xFFFF then 0 else to)
  {
    TablesAgree(c);
    LabelResolved(all, n, to);
  }

  lemma AbsoluteEncoded(all: seq<Entry>, at: u16, b: Jump, n: Name, to: u16)
    requires Named(all) && b.op in {JP, CALL} && (b.Conditional? ==> CondNo(b.c) != -1)
    requires LabelAddr(all, n) == Int16(to)
    ensures var l := JumpLine(b, n);
            Encoded(at, l.op, Resolve(all, l.a1), Resolve(all, l.a2)) == AbsoluteJump(b, if to == 0xFFFF then 0 else to)
  {
    match b
    case Plain(op) => PlainEncoded(all, at, op, n, to);
    case Conditional(op, c) =>
      ConditionKept(all, c);
      ConditionalEncoded(all, at, op, c, n, to);
  }

  /**
   Main result: a JP or CALL to a label is decoded as one to the address the label stands for. The one
   address it cannot name is 0xFFFF, for which it goes to 0.
   */
  lemma AbsoluteJumpsThere(mem: Z80.Mem, lines: seq<Line>, base: u16, j: nat, k: nat, b: Jump)
    requires Loaded(mem, lines, base) && Defines(lines, k) && j < |lines| && lines[j] == JumpLine(b, lines[k].n)
    requires b.op in {JP, CALL} && (b.Conditional? ==> CondNo(b.c) != -1)
    ensures var all := Pass0(lines, base, []).labels;
            && Pass1(lines[..j], base, all).Passed? && Pass1(lines[..k], base, all).Passed?
            && var to := Stands(lines, base, k);
            Z80.Decode(mem, Emitted(lines, base, all, j)).i == AbsoluteJump(b, if to == 0xFFFF then 0 else to)
  {
    var all := Pass0(lines, base, []).labels;
    LineFound(mem, lines, base, all, j);
    LabelStandsFor(lines, base, k, all);
    AbsoluteEncoded(all, Emitted(lines, base, all, j), b, lines[k].n, Stands(lines, base, k));
  }

  /** Which relative jump a line of that kind is. */
  function BranchOf(b: Jump): Branch {
    match b
    case Plain(op) => if op == JR then Always else Looping
    case Conditional(_, c) => When(CondNo(c))
  }

  predicate IsRelative(b: Jump) {
    match b
    case Plain(op) => op in {JR, DJNZ}
    case Conditional(op, c) => op == JR && 0 <= CondNo(c) < 4
  }

  /** From `at` a relative jump reaches the label at `to`: always, but for addresses whose `int` fits a byte. */
  predicate Reaches(at: u16, to: u16) {
    if to == 0xFFFF then at == 0xFFFD
    else if to < 0x80 || to >= 0xFF80 then at == 0xFFFE
    else if to <= 0xFF then at == 0xFE
    else true
  }

  /** A relative jump of that kind, whatever its target. */
  predicate IsBranch(i: Z80.Instr, b: Branch) {
    match b
    case Always => i.Jr?
    case When(c) => i.JrIf? && i.c == c
    case Looping => i.Djnz?
  }

  lemma RelativeEncoded(all: seq<Entry>, at: u16, b: Jump, n: Name, to: u16)
    requires Named(all) && IsRelative(b) && LabelAddr(all, n) == Int16(to)
    requires var l := JumpLine(b, n); Gen(true, at, l.op, Resolve(all, l.a1), Resolve(all, l.a2)).Code?
    ensures var l := JumpLine(b, n);
            var i := Encoded(at, l.op, Resolve(all, l.a1), Resolve(all, l.a2));
            IsBranch(i, BranchOf(b)) && (Target(at, i.d) == to <==> Reaches(at, to))
  {
    LabelResolved(all, n, to);
    AddrOf(all, n);
    if b.Conditional? {
      TablesAgree(b.c);
      ConditionKept(all, b.c);
    }
    var r := Resolve(all, Bare(n));
    if to == 0xFFFF {
      assert Strtol(r) == 0 && Displacement(0, at) == 0 && Target(at, 0) == (at + 2) % 0x1_0000;
    } else {
      MeansRel(at, r);
      IntMods(Int16(to));
    }
  }

  /** Main result: a JR or DJNZ to a label is decoded as one, and goes there exactly when `Reaches` says so. */
  lemma RelativeJumpsThere(mem: Z80.Mem, lines: seq<Line>, base: u16, j: nat, k: nat, b: Jump)
    requires Loaded(mem, lines, base) && Defines(lines, k) && j < |lines| && lines[j] == JumpLine(b, lines[k].n)
    requires IsRelative(b)
    ensures var all := Pass0(lines, base, []).labels;
            && Pass1(lines[..j], base, all).Passed? && Pass1(lines[..k], base, all).Passed?
            && var (at, to) := (Emitted(lines, base, all, j), Stands(lines, base, k));
            var i := Z80.Decode(mem, at).i; IsBranch(i, BranchOf(b)) && (Target(at, i.d) == to <==> Reaches(at, to))
  {
    var all := Pass0(lines, base, []).labels;
    LineFound(mem, lines, base, all, j);
    LabelStandsFor(lines, base, k, all);
    RelativeEncoded(all, Emitted(lines, base, all, j), b, lines[k].n, Stands(lines, base, k));
  }

  // ---- the jump run ---------------------------------------------------------------------------------------

  /** The condition of a jump holds, and DJNZ has not counted down. */
  predicate Takes(b: Jump, c: Z80Exec.Cpu) {
    match b
    case Plain(op) => op == DJNZ ==> AsmWords.Get8(c, Asm.B) != 1
    case Conditional(_, n) => n.Bare? && n.n.Kw? && AsmWords.IsCond(n.n.w) && AsmWords.Met(n.n.w, c.f)
  }

  predicate TakesBranch(i: Z80.Instr, c: Z80Exec.Cpu) {
    match i
    case JrIf(k, _) => Z80Exec.Cond(c.f, k)
    case Djnz(_) => c.regs[Z80Exec.RB] != 1
    case JpIf(k, _) => Z80Exec.Cond(c.f, k)
    case CallIf(k, _) => Z80Exec.Cond(c.f, k)
    case _ => true
  }

  lemma JumpLength(mem: Z80.Mem, at: u16)
    ensures var d := Z80.Decode(mem, at);
            && (d.i.Jr? || d.i.JrIf? || d.i.Djnz? ==> d.len == 2)
            && (d.i.Jp? || d.i.JpIf? || d.i.Call? || d.i.CallIf? ==> d.len == 3)
  {
  }

  lemma DjnzExecutes(m: Z80Exec.Mach, d: byte)
    ensures Z80Exec.Exec(m, Z80.Djnz(d)).cpu.pc
         == if m.cpu.regs[Z80Exec.RB] != 1 then Z80.Wrap(m.cpu.pc + Z80.Disp(d)) else m.cpu.pc
  {
  }

  lemma JrExecutes(m: Z80Exec.Mach, i: Z80.Instr)
    requires i.Jr? || i.JrIf?
    ensures Same(Z80Exec.Exec(m, i), Z80Exec.Jump(m, TakesBranch(i, m.cpu), i.d))
  {
  }

  lemma BranchExecutes(m: Z80Exec.Mach, i: Z80.Instr)
    requires i.Jr? || i.JrIf? || i.Djnz?
    ensures Z80Exec.Exec(m, i).cpu.pc
         == if TakesBranch(i, m.cpu) then Z80.Wrap(m.cpu.pc + Z80.Disp(i.d)) else m.cpu.pc
  {
    if i.Djnz? { DjnzExecutes(m, i.d); } else { JrExecutes(m, i); }
  }

  lemma BranchLands(m: Z80Exec.Mach, x: Z80Exec.Mach, i: Z80.Instr)
    requires (i.Jr? || i.JrIf? || i.Djnz?) && x == Z80Exec.Fetching(m, 2)
    ensures Z80Exec.Exec(x, i).cpu.pc
         == if TakesBranch(i, m.cpu) then Target(m.cpu.pc, i.d) else Z80.Wrap(m.cpu.pc + 2)
  {
    BranchExecutes(x, i);
    AsmRuns.WrapTwice(m.cpu.pc + 2, Z80.Disp(i.d));
  }

  /** A relative jump goes to its target if it is taken, and past itself if not. */
  lemma BranchGoes(m: Z80Exec.Mach, i: Z80.Instr)
    requires i == Z80.Decode(m.mem, m.cpu.pc).i && (i.Jr? || i.JrIf? || i.Djnz?)
    ensures Z80Exec.Step(m).cpu.pc
         == if TakesBranch(i, m.cpu) then Target(m.cpu.pc, i.d) else Z80.Wrap(m.cpu.pc + 2)
  {
    JumpLength(m.mem, m.cpu.pc);
    Z80Stack.StepFetches(m, Z80.Decode(m.mem, m.cpu.pc));
    BranchLands(m, Z80Exec.Fetching(m, 2), i);
  }

  lemma CallExecutes(m: Z80Exec.Mach, i: Z80.Instr)
    requires i.Call? || i.CallIf?
    ensures Z80Exec.Exec(m, i).cpu.pc == if TakesBranch(i, m.cpu) then i.nn else m.cpu.pc
  {
  }

  lemma JumpExecutes(m: Z80Exec.Mach, i: Z80.Instr)
    requires i.Jp? || i.JpIf? || i.Call? || i.CallIf?
    ensures Z80Exec.Exec(m, i).cpu.pc == if TakesBranch(i, m.cpu) then i.nn else m.cpu.pc
  {
    if i.Call? || i.CallIf? { CallExecutes(m, i); }
  }

  lemma AbsoluteTaken(b: Jump, to: u16, c: Z80Exec.Cpu)
    requires b.op in {JP, CALL} && (b.Conditional? ==> CondNo(b.c) != -1)
    ensures Takes(b, c) <==> TakesBranch(AbsoluteJump(b, to), c)
  {
    if b.Conditional? { AsmRuns.CondMet(b.c, c.f); }
  }

  lemma RelativeTaken(b: Jump, i: Z80.Instr, c: Z80Exec.Cpu)
    requires IsRelative(b) && IsBranch(i, BranchOf(b))
    ensures Takes(b, c) <==> TakesBranch(i, c)
  {
    if b.Conditional? { AsmRuns.CondMet(b.c, c.f); } else { AsmWords.Placed(c, Asm.B); }
  }

  /** A step at `at` goes to `to` if the condition named in the line holds, and past the line otherwise. */
  ghost predicate Jumps(m: Z80Exec.Mach, at: u16, b: Jump, to: u16) {
    m.cpu.pc == at ==> (Z80Exec.Step(m).cpu.pc == if Takes(b, m.cpu) then to else Z80.Wrap(at + 3))
  }

  /** The same for a relative jump, which reaches `to` under a condition of its own. */
  ghost predicate Reaching(m: Z80Exec.Mach, at: u16, b: Jump, to: u16) {
    m.cpu.pc == at ==>
      if Takes(b, m.cpu) then Z80Exec.Step(m).cpu.pc == to <==> Reaches(at, to)
      else Z80Exec.Step(m).cpu.pc == Z80.Wrap(at + 2)
  }

  lemma IsAbsolute(b: Jump, to: u16)
    requires b.op in {JP, CALL}
    ensures var i := AbsoluteJump(b, to); (i.Jp? || i.JpIf? || i.Call? || i.CallIf?) && i.nn == to
  {
  }

  lemma AbsoluteExecutes(x: Z80Exec.Mach, b: Jump, to: u16)
    requires b.op in {JP, CALL} && (b.Conditional? ==> CondNo(b.c) != -1)
    ensures Z80Exec.Exec(x, AbsoluteJump(b, to)).cpu.pc == if Takes(b, x.cpu) then to else x.cpu.pc
  {
    IsAbsolute(b, to);
    AbsoluteTaken(b, to, x.cpu);
    JumpExecutes(x, AbsoluteJump(b, to));
  }

  /** An absolute jump or call goes to its operand if the condition named holds, and past itself if not. */
  lemma JumpGoes(m: Z80Exec.Mach, b: Jump, to: u16)
    requires b.op in {JP, CALL} && (b.Conditional? ==> CondNo(b.c) != -1)
    requires Z80.Decode(m.mem, m.cpu.pc).i == AbsoluteJump(b, to)
    ensures Fact(Jumps(m, m.cpu.pc, b, to))
  {
    IsAbsolute(b, to);
    JumpLength(m.mem, m.cpu.pc);
    Z80Stack.StepIs(m, AbsoluteJump(b, to), 3);
    AbsoluteExecutes(Z80Exec.Fetching(m, 3), b, to);
  }

  lemma RelativeGoes(m: Z80Exec.Mach, at: u16, b: Jump, to: u16, i: Z80.Instr)
    requires IsRelative(b) && Z80.Decode(m.mem, at).i == i && IsBranch(i, BranchOf(b))
    requires Target(at, i.d) == to <==> Reaches(at, to)
    ensures Fact(Reaching(m, at, b, to))
  {
    if m.cpu.pc == at {
      RelativeTaken(b, i, m.cpu);
      BranchGoes(m, i);
    }
  }

  /**
   Main result: run from the address of a JP or CALL to a label, the emulator goes, if the condition named in
   the line holds, to the address the label stands for (0 for 0xFFFF), and otherwise past the line.
   */
  lemma AbsoluteJumpsRun(m: Z80Exec.Mach, lines: seq<Line>, base: u16, j: nat, k: nat, b: Jump)
    requires Loaded(m.mem, lines, base) && Defines(lines, k) && j < |lines| && lines[j] == JumpLine(b, lines[k].n)
    requires b.op in {JP, CALL} && (b.Conditional? ==> CondNo(b.c) != -1)
    ensures var all := Pass0(lines, base, []).labels;
            && Pass1(lines[..j], base, all).Passed? && Pass1(lines[..k], base, all).Passed?
            && var to := Stands(lines, base, k);
            Fact(Jumps(m, Emitted(lines, base, all, j), b, if to == 0xFFFF then 0 else to))
  {
    AbsoluteJumpsThere(m.mem, lines, base, j, k, b);
    var (at, to) := (Emitted(lines, base, Pass0(lines, base, []).labels, j), Stands(lines, base, k));
    if m.cpu.pc == at { JumpGoes(m, b, if to == 0xFFFF then 0 else to); }
  }

  /**
   Main result: from a JR or DJNZ whose condition holds it goes there exactly when `Reaches` says so; if the
   condition does not hold, it goes past the line.
   */
  lemma RelativeJumpsRun(m: Z80Exec.Mach, lines: seq<Line>, base: u16, j: nat, k: nat, b: Jump)
    requires Loaded(m.mem, lines, base) && Defines(lines, k) && j < |lines| && lines[j] == JumpLine(b, lines[k].n)
    requires IsRelative(b)
    ensures var all := Pass0(lines, base, []).labels;
            && Pass1(lines[..j], base, all).Passed? && Pass1(lines[..k], base, all).Passed?
            && Fact(Reaching(m, Emitted(lines, base, all, j), b, Stands(lines, base, k)))
  {
    RelativeJumpsThere(m.mem, lines, base, j, k, b);
    var (at, to) := (Emitted(lines, base, Pass0(lines, base, []).labels, j), Stands(lines, base, k));
    RelativeGoes(m, at, b, to, Z80.Decode(m.mem, at).i);
  }
}
