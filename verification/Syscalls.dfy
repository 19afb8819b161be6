/**
 The system call dispatcher, instruction by instruction: two stacks, five memory cells, and handlers in
 C that are only assumed to be balanced. Every call hands its handler the caller's arguments, brings back its
 result and what it did to memory, and leaves the kernel's stack where it found it.
 */
module Syscalls {
  import opened Machine

  // ---- memory -------------------------------------------------------------------------------------

  type Memory = m: seq<byte> | |m| == 0x1_0000 witness seq(0x1_0000, _ => 0)

  function Word(m: Memory, a: int): u16
    requires 0 <= a < 0xFFFF
  {
    m[a] as int + 256 * (m[a + 1] as int)
  }

  function Put(m: Memory, a: int, w: u16): Memory
    requires 0 <= a < 0xFFFF
  {
    m[a := Lo(w)][a + 1 := Hi(w)]
  }

  lemma PutWord(m: Memory, a: int, w: u16)
    requires 0 <= a < 0xFFFF
    ensures Word(Put(m, a, w), a) == w
  {
  }

  lemma PutElsewhere(m: Memory, a: int, w: u16, b: int)
    requires 0 <= a < 0xFFFF && 0 <= b < 0xFFFF && (b + 2 <= a || a + 2 <= b)
    ensures Word(Put(m, a, w), b) == Word(m, b)
  {
  }

  const KERNEL_SP := 0x2002
  const SHELL_SP := 0x2004
  const SYSCALL_RET := 0x2006
  const TMP_REG1 := 0x200A
  const SAVED_SP := 0x2010

  const USER_AREA: u16 := 0x5000
  const USER_STACK: u16 := 0xFFFF
  const PIH_ARGC := 0x4F0A
  const PIH_ARGV: u16 := 0x4F0C

  const SYSCALL_COUNT := 14

  /** The kernel's workspace and stack, which no program and no shell uses. */
  predicate InKernel(a: int) { 0x2000 <= a < 0x3800 }

  /** Nothing outside the kernel differs. */
  ghost predicate Outside(m: Memory, n: Memory) {
    forall a :: 0 <= a < 0x1_0000 && !InKernel(a) ==> n[a] == m[a]
  }

  /** Bytes of `safe` outside the kernel are as they were. */
  predicate Kept(m: Memory, n: Memory, safe: set<int>) {
    forall a :: a in safe && 0 <= a < 0x1_0000 && !InKernel(a) ==> n[a] == m[a]
  }

  /** The words on a stack, from its pointer up. */
  predicate Frame(m: Memory, sp: int, ws: seq<u16>) {
    && 0x3000 <= sp && sp + 2 * |ws| <= 0x3800
    && forall j {:trigger ws[j]} :: 0 <= j < |ws| ==> Word(m, sp + 2 * j) == ws[j]
  }

  lemma FramePush(m: Memory, sp: int, ws: seq<u16>, w: u16)
    requires Frame(m, sp, ws) && 0x3002 <= sp
    ensures Frame(Put(m, sp - 2, w), sp - 2, [w] + ws)
  {
    PutWord(m, sp - 2, w);
    forall j | 0 < j < |ws| + 1 ensures Word(Put(m, sp - 2, w), sp - 2 + 2 * j) == ([w] + ws)[j] {
      PutElsewhere(m, sp - 2, w, sp - 2 + 2 * j);
      assert ([w] + ws)[j] == ws[j - 1];
    }
  }

  lemma FrameOther(m: Memory, sp: int, ws: seq<u16>, a: int, w: u16)
    requires Frame(m, sp, ws) && 0 <= a < 0xFFFF && (a + 2 <= sp || a >= 0x3800)
    ensures Frame(Put(m, a, w), sp, ws)
  {
    forall j | 0 <= j < |ws| ensures Word(Put(m, a, w), sp + 2 * j) == ws[j] { PutElsewhere(m, a, w, sp + 2 * j); }
  }

  // ---- the machine ----------------------------------------------------------------------------------

  datatype Cpu = Cpu(af: u16, bc: u16, de: u16, hl: u16, ix: u16, iy: u16, sp: u16, pc: u16, mem: Memory)

  /** What a handler finds when it starts: registers, a stack with its return address on top, and memory. */
  datatype Entry = Entry(hl: u16, de: u16, bc: u16, sp: u16, mem: Memory)

  /** What a handler makes of that: its result in HL, the memory, and the other registers. */
  datatype Handler = Handler(
    result: Entry -> u16, run: Entry -> Memory, af: u16, bc: u16, de: u16, ix: u16, iy: u16)

  /** It returns its stack as it was, and does not touch the cells. */
  ghost predicate Balanced(h: Handler) {
    forall e: Entry {:trigger h.run(e)} ::
      forall a :: 0x2000 <= a < 0x2012 || (e.sp <= a < 0x3800) ==> h.run(e)[a] == e.mem[a]
  }

  /** It leaves the bytes in `safe` alone. */
  ghost predicate Spares(h: Handler, safe: set<int>) {
    forall e: Entry {:trigger h.run(e)} :: Kept(e.mem, h.run(e), safe)
  }

  function Number(c: Cpu): byte { Hi(c.af) }

  function Ksp(c: Cpu): u16 { Word(c.mem, KERNEL_SP) }

  /** A stack pointer with a return address outside the kernel. */
  predicate Usable(sp: u16) { sp < 0xFFFE && !InKernel(sp) && !InKernel(sp + 1) }

  /** A call about to be made: room on the kernel's stack, and the caller's stack elsewhere. */
  predicate Ready(c: Cpu) {
    0x3040 <= Ksp(c) < 0x3800 && Usable(c.sp)
  }

  /** The registers on the kernel's stack, from the top. */
  function Saved(b: Cpu): seq<u16> { [b.iy, b.ix, b.hl, b.de, b.bc, b.af] }

  /** The kernel is at work on the call made in state `b`; outside it memory is as in `u`. */
  ghost predicate Serving(b: Cpu, m: Memory, u: Memory) {
    && Word(m, KERNEL_SP) == Ksp(b) && Word(m, SAVED_SP) == b.sp && Word(m, TMP_REG1) == b.hl
    && Word(m, SHELL_SP) == Word(b.mem, SHELL_SP)
    && Frame(m, Ksp(b) - 12, Saved(b)) && Outside(u, m)
  }

  lemma ServingPut(b: Cpu, m: Memory, u: Memory, a: int, w: u16)
    requires Ready(b) && Serving(b, m, u)
    requires 0x3000 <= a <= Ksp(b) - 14 || a == SYSCALL_RET
    ensures Serving(b, Put(m, a, w), u)
  {
    PutElsewhere(m, a, w, KERNEL_SP);
    PutElsewhere(m, a, w, SAVED_SP);
    PutElsewhere(m, a, w, TMP_REG1);
    PutElsewhere(m, a, w, SHELL_SP);
    FrameOther(m, Ksp(b) - 12, Saved(b), a, w);
  }

  lemma ServingRun(b: Cpu, u: Memory, h: Handler, e: Entry)
    requires Ready(b) && Serving(b, e.mem, u) && Balanced(h) && e.sp <= Ksp(b) - 12
    ensures Serving(b, h.run(e), h.run(e))
  {
    var n := h.run(e);
    assert forall a :: 0x2000 <= a < 0x2012 || (e.sp <= a < 0x3800) ==> n[a] == e.mem[a];
    forall j | 0 <= j < 6 ensures Word(n, Ksp(b) - 12 + 2 * j) == Saved(b)[j] {
      assert Word(e.mem, Ksp(b) - 12 + 2 * j) == Saved(b)[j];
    }
  }

  /** The cells while a call made in state `b` is being checked. */
  ghost predicate Switched(b: Cpu, m: Memory) {
    && Word(m, KERNEL_SP) == Ksp(b) && Word(m, SAVED_SP) == b.sp
    && Word(m, SHELL_SP) == Word(b.mem, SHELL_SP) && Outside(b.mem, m)
  }

  lemma SwitchedPut(b: Cpu, m: Memory, a: int, w: u16)
    requires Switched(b, m) && (0x3000 <= a < 0x37FF || a == TMP_REG1)
    ensures Switched(b, Put(m, a, w))
  {
    PutElsewhere(m, a, w, KERNEL_SP);
    PutElsewhere(m, a, w, SAVED_SP);
    PutElsewhere(m, a, w, SHELL_SP);
  }

  /** Back with the caller: all registers but HL, the kernel's stack for the next call, and the memory `u`. */
  ghost predicate Back(b: Cpu, c: Cpu, u: Memory)
    requires b.sp < 0xFFFE
  {
    && c.af == b.af && c.bc == b.bc && c.de == b.de && c.ix == b.ix && c.iy == b.iy
    && c.sp == b.sp + 2 && c.pc == Word(c.mem, b.sp)
    && Ksp(c) == Ksp(b) && Outside(u, c.mem)
  }

  function Shell(c: Cpu): u16 { Word(c.mem, SHELL_SP) }

  /** Calls that leave HL as it was. */
  predicate Quiet(n: byte) { 3 <= n <= 6 }

  /** A program started: its entry, its stack, and its arguments; `u` is memory as execv left it. */
  ghost predicate Started(b: Cpu, c: Cpu, u: Memory) {
    && c.pc == USER_AREA && c.sp == USER_STACK && c.hl == PIH_ARGV && c.bc == Word(c.mem, PIH_ARGC)
    && Ksp(c) == Ksp(b)
    && forall a :: 0 <= a < 0x1_0000 && !InKernel(a) && a != 0xFFFD && a != 0xFFFE ==> c.mem[a] == u[a]
  }

  /**
   The handler of the call made in state `b` finds the caller's memory, and the caller's arguments: on the
   stack above the return address for those that take more than one, in the registers otherwise.
   */
  ghost predicate Given(b: Cpu, e: Entry) {
    && Outside(b.mem, e.mem) && 0x3000 <= e.sp && e.sp + 8 <= 0x3800
    && if Number(b) in {1, 2, 10} then
         Word(e.mem, e.sp + 2) == b.hl && Word(e.mem, e.sp + 4) == b.de && Word(e.mem, e.sp + 6) == b.bc
       else if Number(b) in {8, 11} then Word(e.mem, e.sp + 2) == b.hl && Word(e.mem, e.sp + 4) == b.de
       else e.hl == b.hl && e.de == b.de
  }

  /** The number SYS_RAND makes of two readings of the refresh register. */
  predicate Mixed(r1: byte, r2: byte, w: u16) {
    Lo(w) == r1 && forall k :: 0 <= k < 8 ==> (TestBit(Hi(w), k) <==> TestBit(r1, k) != TestBit(r2, k))
  }

  /** What came in from outside: how the handler was entered, and the refresh register read twice. */
  datatype Inputs = Inputs(e: Entry, r1: byte, r2: byte)

  /** What a call made in state `b` comes to, `h` being its handler. */
  ghost predicate Served(b: Cpu, h: Handler, x: Inputs, c: Cpu)
    requires b.sp < 0xFFFE && (Number(b) == 0 ==> Shell(b) < 0xFFFE)
  {
    var n := Number(b);
    if n == 0 then Back(b.(sp := Shell(b)), c, b.mem) && c.hl == b.hl && Shell(c) == Shell(b)
    else if n > SYSCALL_COUNT then Back(b, c, b.mem) && c.hl == 2 && Shell(c) == Shell(b)
    else if n == 7 then Back(b, c, b.mem) && Mixed(x.r1, x.r2, c.hl) && Shell(c) == Shell(b)
    else
      && Given(b, x.e)
      && if n == 11 then
           && Shell(c) == b.sp
           && if h.result(x.e) == 0xFFFF then Back(b, c, h.run(x.e)) && c.hl == 0xFFFF
              else Started(b, c, h.run(x.e))
         else
           && Back(b, c, h.run(x.e)) && Shell(c) == Shell(b)
           && c.hl == if Quiet(n) then b.hl else h.result(x.e)
  }

  /** Bytes no handler touches survive a call, but for the return address pushed for a new program. */
  lemma ServedKeeps(b: Cpu, h: Handler, x: Inputs, c: Cpu, safe: set<int>)
    requires b.sp < 0xFFFE && (Number(b) == 0 ==> Shell(b) < 0xFFFE) && Served(b, h, x, c) && Spares(h, safe)
    ensures Kept(b.mem, c.mem, safe - {0xFFFD, 0xFFFE}) && (Number(b) != 11 ==> Kept(b.mem, c.mem, safe))
  {
    assert Kept(x.e.mem, h.run(x.e), safe);
  }

  /** Only the kernel's stack was written. */
  ghost predicate StackOnly(m: Memory, n: Memory) {
    forall a :: 0 <= a < 0x3000 || 0x3800 <= a < 0x1_0000 ==> n[a] == m[a]
  }

  /** Returning to a caller noted as the shell is returning to the caller. */
  lemma NotedBack(b: Cpu, s: Cpu, c: Cpu, u: Memory)
    requires b.sp < 0xFFFE && s == b.(mem := Put(b.mem, SHELL_SP, b.sp))
    ensures Back(s, c, u) ==> Back(b, c, u)
    ensures Started(s, c, u) ==> Started(b, c, u)
  {
    PutElsewhere(b.mem, SHELL_SP, b.sp, KERNEL_SP);
  }

  // ---- sequences of calls ------------------------------------------------------------------------------

  /** A call: the state it was made in, its handler and inputs, and the state it returned to. */
  datatype Event = Event(b: Cpu, h: Handler, x: Inputs, c: Cpu)

  /** Programs and the shell run between calls: they leave the kernel's memory and the bytes in `safe` alone. */
  ghost predicate UserRan(c: Cpu, b: Cpu, safe: set<int>) {
    (forall a :: InKernel(a) ==> b.mem[a] == c.mem[a]) && Kept(c.mem, b.mem, safe)
  }

  ghost predicate History(run: seq<Event>, safe: set<int>) {
    forall i :: 0 <= i < |run| ==>
      && Ready(run[i].b) && (Number(run[i].b) == 0 ==> Shell(run[i].b) < 0xFFFE)
      && Served(run[i].b, run[i].h, run[i].x, run[i].c) && Spares(run[i].h, safe)
      && (i > 0 ==> UserRan(run[i - 1].c, run[i].b, safe))
  }

  lemma KernelWordKept(c: Cpu, b: Cpu, safe: set<int>, a: int)
    requires UserRan(c, b, safe) && InKernel(a) && InKernel(a + 1)
    ensures Word(b.mem, a) == Word(c.mem, a)
  {
    assert b.mem[a] == c.mem[a] && b.mem[a + 1] == c.mem[a + 1];
  }

  lemma ServedBalances(b: Cpu, h: Handler, x: Inputs, c: Cpu)
    requires b.sp < 0xFFFE && (Number(b) == 0 ==> Shell(b) < 0xFFFE) && Served(b, h, x, c)
    ensures Ksp(c) == Ksp(b)
  {
  }

  lemma {:induction false} BalancedUpTo(run: seq<Event>, safe: set<int>, n: nat)
    requires History(run, safe) && n < |run|
    ensures Ksp(run[n].c) == Ksp(run[0].b)
    decreases n
  {
    ServedBalances(run[n].b, run[n].h, run[n].x, run[n].c);
    if n > 0 {
      BalancedUpTo(run, safe, n - 1);
      KernelWordKept(run[n - 1].c, run[n].b, safe, KERNEL_SP);
    }
  }

  /** Whatever is called, valid or not, KERNEL_SP comes back to where it started. */
  lemma KernelStackBalanced(run: seq<Event>, safe: set<int>)
    requires History(run, safe) && run != []
    ensures Ksp(run[|run| - 1].c) == Ksp(run[0].b)
  {
    BalancedUpTo(run, safe, |run| - 1);
  }

  /** While no other execv is called, its caller's stack pointer and the bytes kept safe stay. */
  lemma {:induction false} CallerStaysNoted(run: seq<Event>, safe: set<int>, k: nat)
    requires History(run, safe) && k < |run| && Number(run[0].b) == 11
    requires forall i :: 0 < i <= k ==> Number(run[i].b) != 11
    ensures Shell(run[k].c) == run[0].b.sp && Kept(run[0].b.mem, run[k].c.mem, safe - {0xFFFD, 0xFFFE})
    decreases k
  {
    if k > 0 {
      CallerStaysNoted(run, safe, k - 1);
      KernelWordKept(run[k - 1].c, run[k].b, safe, SHELL_SP);
      assert Kept(run[k - 1].c.mem, run[k].b.mem, safe);
    }
    ServedKeeps(run[k].b, run[k].h, run[k].x, run[k].c, safe);
  }

  /**
   Main result: SYS_EXIT resumes, at its return address, whoever called execv last. From a program that
   calls no execv itself, that is the shell which started it.
   */
  lemma ExitResumesCaller(run: seq<Event>, safe: set<int>)
    requires History(run, safe) && OneProgram(run, safe)
    ensures var b, c := run[0].b, run[|run| - 1].c;
            c.sp == b.sp + 2 && c.pc == Word(b.mem, b.sp) && Ksp(c) == Ksp(b)
  {
    var n := |run| - 1;
    KernelStackBalanced(run, safe);
    CallerStaysNoted(run, safe, n);
    CallerStaysNoted(run, safe, n - 1);
    KernelWordKept(run[n - 1].c, run[n].b, safe, SHELL_SP);
  }

  /** What happens between two calls, and what the kernel's handlers and the refresh register do in the next one. */
  datatype Turn = Turn(user: Cpu -> Cpu, table: seq<Handler>, r1: byte, r2: byte)

  /** A state user code can be in: the kernel's stack has room, and the next SYS_EXIT has somewhere to go. */
  predicate Sensible(c: Cpu) { 0x3040 <= Ksp(c) < 0x3800 && Usable(Shell(c)) }

  /** A handler for each number, balanced, leaving `safe` alone. */
  ghost predicate Sound(table: seq<Handler>, safe: set<int>) {
    |table| == SYSCALL_COUNT + 1 && forall n :: 0 <= n < |table| ==> Balanced(table[n]) && Spares(table[n], safe)
  }

  /** The entry of the table for that number; numbers past its end have none. */
  function Chosen(table: seq<Handler>, n: byte): Handler
    requires |table| == SYSCALL_COUNT + 1
  {
    if n <= SYSCALL_COUNT then table[n] else table[0]
  }

  /** User code and handlers that keep to their own memory; `kept` are the bytes user code leaves alone. */
  ghost predicate Behaves(t: Turn, safe: set<int>, kept: set<int>) {
    && Sound(t.table, safe)
    && forall c :: Sensible(c) ==> UserRan(c, t.user(c), kept) && Usable(t.user(c).sp)
  }

  /** One call more. */
  lemma HistoryGrows(run: seq<Event>, e: Event, safe: set<int>)
    requires History(run, safe) && Ready(e.b) && (Number(e.b) == 0 ==> Shell(e.b) < 0xFFFE)
    requires Fact(Served(e.b, e.h, e.x, e.c)) && Spares(e.h, safe)
    requires run != [] ==> UserRan(run[|run| - 1].c, e.b, safe)
    ensures History(run + [e], safe)
  {
    var all := run + [e];
    forall i | 0 <= i < |all|
      ensures Ready(all[i].b) && (Number(all[i].b) == 0 ==> Shell(all[i].b) < 0xFFFE)
      ensures Served(all[i].b, all[i].h, all[i].x, all[i].c) && Spares(all[i].h, safe)
      ensures i > 0 ==> UserRan(all[i - 1].c, all[i].b, safe)
    {
      if i < |run| { assert all[i] == run[i]; } else { assert all[i] == e; }
      if i > 0 { assert all[i - 1] == run[i - 1]; }
    }
  }

  /** The next SYS_EXIT can use the stack pointer noted last. */
  lemma ShellStaysUsable(b: Cpu, h: Handler, x: Inputs, c: Cpu)
    requires Ready(b) && Usable(Shell(b)) && Fact(Served(b, h, x, c))
    ensures Usable(Shell(c)) && Ksp(c) == Ksp(b)
  {
  }

  /** The first call starts a program, which makes calls other than execv and then exits. */
  predicate OneProgram(run: seq<Event>, safe: set<int>) {
    && |run| > 1 && Number(run[0].b) == 11 && Number(run[|run| - 1].b) == 0
    && (forall i :: 0 < i < |run| ==> Number(run[i].b) != 11)
    && var sp := run[0].b.sp; sp + 1 < 0xFFFD && sp in safe && sp + 1 in safe
  }

  lemma GivenThree(b: Cpu, e: Entry)
    requires Frame(e.mem, e.sp + 2, [b.hl] + ([b.de] + ([b.bc] + []))) && Outside(b.mem, e.mem) && 0x3000 <= e.sp
    requires Number(b) in {1, 2, 10}
    ensures Given(b, e)
  {
    var ws := [b.hl] + ([b.de] + ([b.bc] + []));
    assert ws[0] == b.hl && ws[1] == b.de && ws[2] == b.bc;
  }

  lemma GivenTwo(b: Cpu, e: Entry)
    requires Frame(e.mem, e.sp + 2, [b.hl] + ([b.de] + [])) && Outside(b.mem, e.mem) && 0x3000 <= e.sp <= 0x37F8
    requires Number(b) in {8, 11}
    ensures Given(b, e)
  {
    var ws := [b.hl] + ([b.de] + []);
    assert ws[0] == b.hl && ws[1] == b.de;
  }

  function Joined(high: byte, low: byte): (w: u16)
    ensures Hi(w) == high && Lo(w) == low
  {
    256 * (high as int) + low as int
  }

  lemma MixedBits(r1: byte, r2: byte, w: u16)
    requires Hi(w) == Bitwise8(Unlike, r2, r1) && Lo(w) == r1
    ensures Mixed(r1, r2, w)
  {
    forall k | 0 <= k < 8 ensures TestBit(Hi(w), k) <==> TestBit(r1, k) != TestBit(r2, k) {
      BitwiseBit(Unlike, r2, r1, 8, k);
    }
  }

  class Processor {
    var af: u16
    var bc: u16
    var de: u16
    var hl: u16
    var ix: u16
    var iy: u16
    var sp: u16
    var pc: u16
    var mem: Memory

    function Snap(): Cpu
      reads this
    {
      Cpu(af, bc, de, hl, ix, iy, sp, pc, mem)
    }

    /** About to call `h` for the call made in state `b`. */
    ghost predicate Called(b: Cpu, h: Handler)
      reads this
    {
      Ready(b) && Serving(b, mem, b.mem) && sp == Ksp(b) - 12 && bc == b.bc && de == b.de && Balanced(h)
    }

    method Push(w: u16)
      requires sp >= 2
      modifies this`sp, this`mem
      ensures sp == old(sp) - 2 && mem == Put(old(mem), sp, w)
    {
      sp := sp - 2;
      mem := Put(mem, sp, w);
    }

    method Pop() returns (w: u16)
      requires sp < 0xFFFE
      modifies this`sp
      ensures sp == old(sp) + 2 && w == Word(mem, old(sp))
    {
      w := Word(mem, sp);
      sp := sp + 2;
    }

    /** RET through the pointer kept in SAVED_SP. */
    method Leave()
      requires Word(mem, SAVED_SP) < 0xFFFE
      modifies this`sp, this`pc
      ensures sp == Word(mem, SAVED_SP) + 2 && pc == Word(mem, Word(mem, SAVED_SP))
    {
      sp := Word(mem, SAVED_SP);
      pc := Pop();
    }

    /** The switch to the kernel's stack and the check of the number. */
    method Enter() returns (valid: bool)
      requires Ready(Snap())
      modifies this
      ensures valid <==> Number(old(Snap())) <= SYSCALL_COUNT
      ensures var b := old(Snap()); Snap() == b.(sp := sp, mem := mem, af := af, hl := hl)
      ensures Switched(old(Snap()), mem)
      ensures sp == Ksp(old(Snap())) - if valid then 0 else 4
      ensures valid ==> af == old(af) && hl == old(hl)
      ensures !valid ==> Word(mem, sp) == old(af) && Word(mem, sp + 2) == old(hl)
    {
      ghost var b := Snap();
      mem := Put(mem, SAVED_SP, sp);
      sp := Word(mem, KERNEL_SP);
      assert Switched(b, mem);
      SwitchedPut(b, mem, sp - 2, hl);
      Push(hl);
      SwitchedPut(b, mem, sp - 2, af);
      PutElsewhere(mem, sp - 2, af, sp);
      Push(af);
      var number := Hi(af);
      hl := Joined(Hi(hl), number);
      valid := !(SYSCALL_COUNT < number);
      af := SYSCALL_COUNT * 256;
      if valid {
        af := Pop();
        hl := Pop();
      }
    }

    /** An unknown number: error 2, at once. */
    method Refuse(ghost b: Cpu)
      requires Ready(b) && Switched(b, mem) && Snap() == b.(sp := sp, mem := mem, af := af, hl := hl)
      requires sp == Ksp(b) - 4 && Word(mem, sp) == b.af && Word(mem, sp + 2) == b.hl
      modifies this
      ensures Back(b, Snap(), b.mem) && hl == 2 && Shell(Snap()) == Shell(b)
    {
      af := Pop();
      hl := Pop();
      hl := 2;
      Leave();
    }

    /** A push onto words already on the kernel's stack. */
    method PushOn(w: u16, ghost ws: seq<u16>)
      requires 0x3002 <= sp && Frame(mem, sp, ws)
      modifies this`sp, this`mem
      ensures sp == old(sp) - 2 && Frame(mem, sp, [w] + ws) && StackOnly(old(mem), mem)
    {
      FramePush(mem, sp, ws, w);
      Push(w);
    }

    method SaveRegisters(ghost b: Cpu)
      requires 0x3040 <= sp < 0x3800 && Snap() == b.(sp := sp, mem := mem)
      modifies this`sp, this`mem
      ensures sp == old(sp) - 12 && Frame(mem, sp, Saved(b)) && StackOnly(old(mem), mem)
    {
      PushOn(af, []);
      PushOn(bc, [b.af] + []);
      PushOn(de, [b.bc] + ([b.af] + []));
      PushOn(hl, [b.de] + ([b.bc] + ([b.af] + [])));
      PushOn(ix, [b.hl] + ([b.de] + ([b.bc] + ([b.af] + []))));
      PushOn(iy, [b.ix] + ([b.hl] + ([b.de] + ([b.bc] + ([b.af] + [])))));
      assert [b.iy] + ([b.ix] + ([b.hl] + ([b.de] + ([b.bc] + ([b.af] + []))))) == Saved(b);
    }

    /** The registers saved, and the handler's address computed from the table. */
    method Prepare(ghost b: Cpu)
      requires Ready(b) && Switched(b, mem) && Snap() == b.(sp := sp, mem := mem) && sp == Ksp(b)
      modifies this
      ensures Serving(b, mem, b.mem) && sp == Ksp(b) - 12 && bc == b.bc && de == b.de
    {
      SaveRegisters(b);
      FrameOther(mem, sp, Saved(b), TMP_REG1, hl);
      SwitchedPut(b, mem, TMP_REG1, hl);
      PutWord(mem, TMP_REG1, hl);
      mem := Put(mem, TMP_REG1, hl);
      ServingPut(b, mem, b.mem, sp - 2, de);
      PutWord(mem, sp - 2, de);
      Push(de);
      af := Lo(2 * Hi(af)) * 256;
      de := Pop();
    }

    /** `SYSCALL_END_NO_RET`: the registers, then the caller's stack. */
    method EndNoRet(ghost b: Cpu, ghost u: Memory)
      requires Ready(b) && Serving(b, mem, u) && sp == Ksp(b) - 12
      modifies this
      ensures Back(b, Snap(), u) && hl == b.hl && Word(mem, SHELL_SP) == Word(b.mem, SHELL_SP)
    {
      Restore(b);
      mem := Put(mem, KERNEL_SP, sp);
      Leave();
    }

    /** `SYSCALL_END`: as above, with the value saved for the caller in HL. */
    method End(ghost b: Cpu, ghost u: Memory)
      requires Ready(b) && Serving(b, mem, u) && sp == Ksp(b) - 12
      modifies this
      ensures Back(b, Snap(), u) && hl == Word(old(mem), SYSCALL_RET)
      ensures Word(mem, SHELL_SP) == Word(b.mem, SHELL_SP)
    {
      Restore(b);
      hl := Word(mem, SYSCALL_RET);
      mem := Put(mem, KERNEL_SP, sp);
      Leave();
    }

    method Restore(ghost b: Cpu)
      requires Frame(mem, sp, Saved(b))
      modifies this`iy, this`ix, this`hl, this`de, this`bc, this`af, this`sp
      ensures Snap() == b.(sp := old(sp) + 12, mem := mem, pc := pc)
    {
      ghost var f := Saved(b);
      assert Word(mem, sp) == f[0] && Word(mem, sp + 2) == f[1] && Word(mem, sp + 4) == f[2];
      assert Word(mem, sp + 6) == f[3] && Word(mem, sp + 8) == f[4] && Word(mem, sp + 10) == f[5];
      iy := Pop();
      ix := Pop();
      hl := Pop();
      de := Pop();
      bc := Pop();
      af := Pop();
    }
  
    /** `GET_HL_SYSCALL`. */
    method GetHl(ghost b: Cpu, ghost u: Memory)
      requires Ready(b) && Serving(b, mem, u) && 0x3002 <= sp <= Ksp(b) - 12
      modifies this`hl, this`sp, this`mem, this`pc
      ensures Serving(b, mem, u) && sp == old(sp) && hl == b.hl
    {
      ServingPut(b, mem, u, sp - 2, pc);
      Push(pc);
      hl := Word(mem, TMP_REG1);
      pc := Pop();
    }

    method SaveRet(ghost b: Cpu, ghost u: Memory)
      requires Ready(b) && Serving(b, mem, u) && 0x3002 <= sp <= Ksp(b) - 12
      modifies this`sp, this`mem, this`pc
      ensures Serving(b, mem, u) && sp == old(sp) && Word(mem, SYSCALL_RET) == hl
    {
      ServingPut(b, mem, u, sp - 2, pc);
      Push(pc);
      ServingPut(b, mem, u, SYSCALL_RET, hl);
      PutWord(mem, SYSCALL_RET, hl);
      mem := Put(mem, SYSCALL_RET, hl);
      pc := Pop();
    }

    /** One argument more, on top of those already pushed. */
    method PushArg(w: u16, ghost args: seq<u16>, ghost b: Cpu, ghost u: Memory)
      requires Ready(b) && Serving(b, mem, u) && 0x3002 <= sp <= Ksp(b) - 12 && Frame(mem, sp, args)
      modifies this`sp, this`mem
      ensures Serving(b, mem, u) && sp == old(sp) - 2 && Frame(mem, sp, [w] + args)
    {
      ServingPut(b, mem, u, sp - 2, w);
      FramePush(mem, sp, args, w);
      Push(w);
    }

    /** A handler in C: registers and memory as it leaves them, the stack pointer back where it was. */
    method CallC(h: Handler, ghost args: seq<u16>, ghost b: Cpu, ghost u: Memory) returns (ghost e: Entry)
      requires Ready(b) && Serving(b, mem, u) && 0x3002 <= sp <= Ksp(b) - 12 && Balanced(h) && Frame(mem, sp, args)
      modifies this
      ensures e.hl == old(hl) && e.de == old(de) && e.bc == old(bc) && e.sp == old(sp) - 2
      ensures Frame(e.mem, e.sp + 2, args) && Outside(u, e.mem)
      ensures Serving(b, mem, h.run(e)) && sp == old(sp) && hl == h.result(e)
    {
      ServingPut(b, mem, u, sp - 2, pc);
      FrameOther(mem, sp, args, sp - 2, pc);
      Push(pc);
      var entry := Entry(hl, de, bc, sp, mem);
      e := entry;
      ServingRun(b, u, h, entry);
      mem := h.run(entry);
      af, bc, de, hl, ix, iy := h.af, h.bc, h.de, h.result(entry), h.ix, h.iy;
      pc := Pop();
    }

    /** SYS_WRITE and SYS_READ. */
    method SysTransfer(h: Handler, ghost b: Cpu) returns (ghost e: Entry)
      requires Called(b, h) && Number(b) in {1, 2}
      modifies this
      ensures Given(b, e) && Back(b, Snap(), h.run(e)) && hl == h.result(e) && Shell(Snap()) == Shell(b)
    {
      GetHl(b, b.mem);
      PushArg(bc, [], b, b.mem);
      PushArg(de, [b.bc] + [], b, b.mem);
      PushArg(hl, [b.de] + ([b.bc] + []), b, b.mem);
      e := CallC(h, [b.hl] + ([b.de] + ([b.bc] + [])), b, b.mem);
      GivenThree(b, e);
      SaveRet(b, h.run(e));
      hl := Pop();
      de := Pop();
      bc := Pop();
      End(b, h.run(e));
    }

    method SysSeek(h: Handler, ghost b: Cpu) returns (ghost e: Entry)
      requires Called(b, h) && Number(b) == 10
      modifies this
      ensures Given(b, e) && Back(b, Snap(), h.run(e)) && hl == h.result(e) && Shell(Snap()) == Shell(b)
    {
      GetHl(b, b.mem);
      PushArg(bc, [], b, b.mem);
      PushArg(de, [b.bc] + [], b, b.mem);
      PushArg(hl, [b.de] + ([b.bc] + []), b, b.mem);
      e := CallC(h, [b.hl] + ([b.de] + ([b.bc] + [])), b, b.mem);
      GivenThree(b, e);
      de := Pop();
      de := Pop();
      de := Pop();
      SaveRet(b, h.run(e));
      End(b, h.run(e));
    }

    method SysOpen(h: Handler, ghost b: Cpu) returns (ghost e: Entry)
      requires Called(b, h) && Number(b) == 8
      modifies this
      ensures Given(b, e) && Back(b, Snap(), h.run(e)) && hl == h.result(e) && Shell(Snap()) == Shell(b)
    {
      GetHl(b, b.mem);
      PushArg(de, [], b, b.mem);
      PushArg(hl, [b.de] + [], b, b.mem);
      e := CallC(h, [b.hl] + ([b.de] + []), b, b.mem);
      GivenTwo(b, e);
      de := Pop();
      de := Pop();
      SaveRet(b, h.run(e));
      End(b, h.run(e));
    }

    /** SYS_CLOSE, SYS_LIST, SYS_FILESIZE and SYS_REMOVE: the argument stays in HL. */
    method SysPlain(h: Handler, ghost b: Cpu) returns (ghost e: Entry)
      requires Called(b, h) && Number(b) in {9, 12, 13, 14}
      modifies this
      ensures Given(b, e) && Back(b, Snap(), h.run(e)) && hl == h.result(e) && Shell(Snap()) == Shell(b)
    {
      GetHl(b, b.mem);
      e := CallC(h, [], b, b.mem);
      SaveRet(b, h.run(e));
      End(b, h.run(e));
    }

    /** SYS_RAND: two readings of the refresh register, the second mixed with the first. */
    method SysRand(r1: byte, r2: byte, ghost b: Cpu)
      requires Ready(b) && Serving(b, mem, b.mem) && sp == Ksp(b) - 12
      modifies this
      ensures Back(b, Snap(), b.mem) && Mixed(r1, r2, hl) && Shell(Snap()) == Shell(b)
    {
      hl := Joined(Hi(hl), r1);
      hl := Joined(Bitwise8(Unlike, r2, Lo(hl)), Lo(hl));
      MixedBits(r1, r2, hl);
      SaveRet(b, b.mem);
      End(b, b.mem);
    }

    /** SYS_GETS, SYS_PUTS, SYS_PUTH and SYS_GETINFO: terminal work without a result. */
    method SysQuiet(h: Handler, ghost b: Cpu) returns (ghost e: Entry)
      requires Called(b, h) && Quiet(Number(b))
      modifies this
      ensures Given(b, e) && Back(b, Snap(), h.run(e)) && hl == b.hl && Shell(Snap()) == Shell(b)
    {
      GetHl(b, b.mem);
      e := CallC(h, [], b, b.mem);
      EndNoRet(b, h.run(e));
    }

    method SysExit(ghost b: Cpu)
      requires Ready(b) && Ready(b.(sp := Shell(b))) && Serving(b, mem, b.mem) && sp == Ksp(b) - 12
      modifies this
      ensures Back(b.(sp := Shell(b)), Snap(), b.mem) && hl == b.hl && Shell(Snap()) == Shell(b)
    {
      ghost var s := b.(sp := Shell(b));
      hl := Word(mem, SHELL_SP);
      FrameOther(mem, sp, Saved(b), SAVED_SP, hl);
      mem := Put(mem, SAVED_SP, hl);
      assert Serving(s, mem, b.mem);
      GetHl(s, b.mem);
      SaveRet(s, b.mem);
      EndNoRet(s, b.mem);
    }

    /** The caller's stack pointer is kept for the next SYS_EXIT. */
    method NoteCaller(ghost b: Cpu, ghost s: Cpu)
      requires Ready(b) && Serving(b, mem, b.mem) && sp == Ksp(b) - 12
      requires s == b.(mem := Put(b.mem, SHELL_SP, b.sp))
      modifies this`hl, this`mem
      ensures Ready(s) && Ksp(s) == Ksp(b) && Shell(s) == b.sp && Serving(s, mem, b.mem)
    {
      hl := Word(mem, SAVED_SP);
      FrameOther(mem, sp, Saved(b), SHELL_SP, hl);
      PutElsewhere(b.mem, SHELL_SP, b.sp, KERNEL_SP);
      PutWord(b.mem, SHELL_SP, b.sp);
      mem := Put(mem, SHELL_SP, hl);
    }

    method LoadProgram(h: Handler, ghost s: Cpu, ghost u: Memory) returns (ghost e: Entry)
      requires Ready(s) && Serving(s, mem, u) && sp == Ksp(s) - 12 && de == s.de && Balanced(h)
      modifies this
      ensures e.sp == sp - 6 && Frame(e.mem, e.sp + 2, [s.hl] + ([s.de] + [])) && Outside(u, e.mem)
      ensures Serving(s, mem, h.run(e)) && sp == Ksp(s) - 12
      ensures hl == h.result(e) && Word(mem, SYSCALL_RET) == hl
    {
      GetHl(s, u);
      PushArg(de, [], s, u);
      PushArg(hl, [s.de] + [], s, u);
      e := CallC(h, [s.hl] + ([s.de] + []), s, u);
      SaveRet(s, h.run(e));
      de := Pop();
      de := Pop();
    }

    /** -1 goes back to the caller; anything else starts the program. */
    method Judge(ghost s: Cpu, ghost u: Memory)
      requires Ready(s) && Serving(s, mem, u) && sp == Ksp(s) - 12 && Word(mem, SYSCALL_RET) == hl
      modifies this
      ensures Shell(Snap()) == Shell(s)
      ensures if old(hl) == 0xFFFF then Back(s, Snap(), u) && hl == 0xFFFF else Started(s, Snap(), u)
    {
      de := 0xFFFF;
      hl := (hl - de) % 0x1_0000;
      if hl == 0 { End(s, u); } else { Launch(s, u); }
    }

    method SysExecv(h: Handler, ghost b: Cpu) returns (ghost e: Entry)
      requires Called(b, h) && Number(b) == 11
      modifies this
      ensures Given(b, e) && Shell(Snap()) == b.sp
      ensures if h.result(e) == 0xFFFF then Back(b, Snap(), h.run(e)) && hl == 0xFFFF
              else Started(b, Snap(), h.run(e))
    {
      ghost var s := b.(mem := Put(b.mem, SHELL_SP, b.sp));
      NoteCaller(b, s);
      e := LoadProgram(h, s, b.mem);
      GivenTwo(b, e);
      Judge(s, h.run(e));
      ghost var c := Snap();
      NotedBack(b, s, c, h.run(e));
    }

    /** The program's entry goes onto its stack as a return address. */
    method NewStack(ghost s: Cpu, ghost u: Memory)
      requires Ready(s) && Serving(s, mem, u) && sp == Ksp(s) - 12
      modifies this`hl, this`sp, this`mem
      ensures sp == old(sp) && Word(mem, SAVED_SP) == 0xFFFD && Word(mem, 0xFFFD) == USER_AREA
      ensures Word(mem, KERNEL_SP) == Ksp(s) && Word(mem, SHELL_SP) == Shell(s)
      ensures forall a :: 0 <= a < 0x1_0000 && !InKernel(a) && a != 0xFFFD && a != 0xFFFE ==> mem[a] == u[a]
    {
      mem := Put(mem, TMP_REG1, sp);
      assert Word(mem, TMP_REG1) == sp && Word(mem, KERNEL_SP) == Ksp(s) && Word(mem, SHELL_SP) == Shell(s);
      hl := USER_STACK;
      sp := hl;
      hl := USER_AREA;
      Push(hl);
      assert Word(mem, TMP_REG1) == old(sp) && Word(mem, KERNEL_SP) == Ksp(s) && Word(mem, SHELL_SP) == Shell(s);
      PutWord(mem, SAVED_SP, sp);
      PutElsewhere(mem, SAVED_SP, sp, 0xFFFD);
      mem := Put(mem, SAVED_SP, sp);
      sp := Word(mem, TMP_REG1);
    }

    method DropRegisters()
      requires sp < 0x3800
      modifies this`hl, this`sp
      ensures sp == old(sp) + 12
    {
      hl := Pop();
      hl := Pop();
      hl := Pop();
      hl := Pop();
      hl := Pop();
      hl := Pop();
    }

    /** The saved registers are dropped, and the program gets its arguments. */
    method Launch(ghost s: Cpu, ghost u: Memory)
      requires Ready(s) && Serving(s, mem, u) && sp == Ksp(s) - 12
      modifies this
      ensures Started(s, Snap(), u) && Shell(Snap()) == Shell(s)
    {
      NewStack(s, u);
      DropRegisters();
      bc := Word(mem, PIH_ARGC);
      hl := PIH_ARGV;
      PutElsewhere(mem, KERNEL_SP, sp, 0xFFFD);
      mem := Put(mem, KERNEL_SP, sp);
      Leave();
    }

    /** One call, from RST 0x20 to the return into a program or the shell. */
    method Syscall(table: seq<Handler>, r1: byte, r2: byte) returns (ghost e: Entry)
      requires Ready(Snap()) && (Number(Snap()) == 0 ==> Usable(Shell(Snap())))
      requires |table| == SYSCALL_COUNT + 1 && forall n :: 0 <= n < |table| ==> Balanced(table[n])
      modifies this
      ensures Fact(Served(old(Snap()), Chosen(table, Number(old(Snap()))), Inputs(e, r1, r2), Snap()))
    {
      ghost var b := Snap();
      e := Entry(0, 0, 0, 0, mem);
      var number := Hi(af);
      var valid := Enter();
      if !valid {
        Refuse(b);
        return;
      }
      Prepare(b);
      if number == 0 { SysExit(b); }
      else if number <= 2 { e := SysTransfer(table[number], b); }
      else if number <= 6 { e := SysQuiet(table[number], b); }
      else if number == 7 { SysRand(r1, r2, b); }
      else if number == 8 { e := SysOpen(table[number], b); }
      else if number == 10 { e := SysSeek(table[number], b); }
      else if number == 11 { e := SysExecv(table[number], b); }
      else { e := SysPlain(table[number], b); }
    }

    method Load(b: Cpu)
      modifies this
      ensures Snap() == b
    {
      af, bc, de, hl, ix, iy, sp, pc, mem := b.af, b.bc, b.de, b.hl, b.ix, b.iy, b.sp, b.pc, b.mem;
    }

    /**
     Main result: any sequence of calls, with user code running in between. KERNEL_SP ends as it began,
     and a program's exit resumes its starter.
     */
    method Session(turns: seq<Turn>, ghost safe: set<int>) returns (ghost run: seq<Event>)
      requires Sensible(Snap())
      requires forall i :: 0 <= i < |turns| ==> Behaves(turns[i], safe, if i == 0 then {} else safe)
      modifies this
      ensures |run| == |turns| && History(run, safe) && (run != [] ==> run[|run| - 1].c == Snap())
      ensures Ksp(Snap()) == old(Ksp(Snap()))
      ensures OneProgram(run, safe) ==> sp == run[0].b.sp + 2 && pc == Word(run[0].b.mem, run[0].b.sp)
    {
      run := [];
      var i := 0;
      while i < |turns|
        invariant i == |run| <= |turns| && History(run, safe)
        invariant run != [] ==> run[|run| - 1].c == Snap()
        invariant Sensible(Snap()) && Ksp(Snap()) == old(Ksp(Snap()))
      {
        ghost var c := Snap();
        ghost var kept := if i == 0 then {} else safe;
        assert Behaves(turns[i], safe, kept);
        var b := turns[i].user(Snap());
        KernelWordKept(c, b, kept, KERNEL_SP);
        KernelWordKept(c, b, kept, SHELL_SP);
        Load(b);
        ghost var e := Syscall(turns[i].table, turns[i].r1, turns[i].r2);
        ghost var h, x := Chosen(turns[i].table, Number(b)), Inputs(e, turns[i].r1, turns[i].r2);
        ShellStaysUsable(b, h, x, Snap());
        HistoryGrows(run, Event(b, h, x, Snap()), safe);
        run := run + [Event(b, h, x, Snap())];
        i := i + 1;
      }
      if OneProgram(run, safe) { ExitResumesCaller(run, safe); }
    }
  }
}
