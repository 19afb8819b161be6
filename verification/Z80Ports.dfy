/** Port instructions and the control registers: bytes through the serial port, and what gates interrupts. */
module Z80Ports {
  import opened Machine
  import opened Z80Alu
  import opened Z80
  import opened Z80Exec
  import opened Z80Ops
  import opened Z80Block
  import Z80Disk

  const SERIAL: byte := 0x81

  // ---- OTIR and OTDR ---------------------------------------------------------------------------------------

  /** One round of a repeated output to the serial port. */
  predicate SendRound(m: Mach, r: Mach, down: bool) {
    && r.screen == m.screen + [MRead8(m.mem, Hl(m.cpu))] && r.mem == m.mem && r.fdc == m.fdc && r.rom == m.rom
    && r.cpu.regs[RC] == m.cpu.regs[RC] && Hl(r.cpu) == Step16(Hl(m.cpu), down)
    && r.cpu.regs[RB] == (m.cpu.regs[RB] as int - 1) % 256
    && r.cpu.pc == if r.cpu.regs[RB] != 0 then m.cpu.pc else m.cpu.pc + 2
  }

  predicate AtSend(m: Mach, down: bool) {
    At(m.mem, m.cpu.pc, if down then 0xBB else 0xB3) && m.cpu.regs[RC] == SERIAL
  }

  lemma DecodeSend(mem: Mem, pc: u16, down: bool)
    requires At(mem, pc, if down then 0xBB else 0xB3)
    ensures Decode(mem, pc) == Fetched(Block(if down then 7 else 6, 3), 2)
  {
    assert B(mem, pc) == 0xED;
    assert DecodeEd(if down then 0xBB else 0xB3, mem, pc + 2) == Fetched(Block(if down then 7 else 6, 3), 2);
  }

  lemma FetchSend(m: Mach, down: bool)
    requires AtSend(m, down)
    ensures Same(Step(m), Exec(Fetching(m, 2), Block(if down then 7 else 6, 3)))
  {
    DecodeSend(m.mem, m.cpu.pc, down);
  }

  lemma SendOp(x: Mach, down: bool, b: byte)
    requires x.cpu.regs[RC] == SERIAL && b == MRead8(x.mem, Hl(x.cpu))
    ensures Same(BlockOp(x, if down then 7 else 6, 3), BlockCount(Output(x, SERIAL, b), down, true))
  {
  }

  lemma StepSends(m: Mach, down: bool, x: Mach, b: byte)
    requires AtSend(m, down) && x == Fetching(m, 2) && b == MRead8(m.mem, Hl(m.cpu))
    ensures Same(Step(m), BlockCount(Output(x, SERIAL, b), down, true))
  {
    FetchSend(m, down);
    ExecIsBlockOp(x, Block(if down then 7 else 6, 3));
    SendOp(x, down, b);
  }

  /** What such a round does after the byte is out: HL moves, B counts down, and PC goes back or on. */
  predicate Counted(c: Cpu, r: Cpu, down: bool, pc: u16) {
    && Hl(r) == Step16(Hl(c), down) && r.regs[RC] == c.regs[RC] && r.regs[RB] == (c.regs[RB] as int - 1) % 256
    && r.pc == if r.regs[RB] != 0 then pc else Wrap(pc + 2)
  }

  lemma CountMoves(x: Mach, down: bool, pc: u16, r: Mach)
    requires x.cpu.pc == Wrap(pc + 2) && pc + 1 < MEM_SIZE && Same(r, BlockCount(x, down, true))
    ensures Same(r, x.(cpu := r.cpu)) && Counted(x.cpu, r.cpu, down, pc)
  {
    var (b, f) := Dec8(x.cpu.f, x.cpu.regs[RB]);
    var c := SetHl(x.cpu, Step16(Hl(x.cpu), down));
    AgainOrOn(c.(regs := c.regs[RB := b], f := f), pc, b != 0);
  }

  lemma ByteOut(x: Mach, b: byte, y: Mach)
    requires y == Output(x, SERIAL, b)
    ensures y.cpu == x.cpu && y.mem == x.mem && y.fdc == x.fdc && y.rom == x.rom && y.screen == x.screen + [b]
  {
  }

  lemma Sends(m: Mach, x: Mach, b: byte, y: Mach, r: Mach, down: bool)
    requires m.cpu.pc + 1 < MEM_SIZE && b == MRead8(m.mem, Hl(m.cpu)) && Same(x, Fetching(m, 2))
    requires y.cpu == x.cpu && y.mem == x.mem && y.fdc == x.fdc && y.rom == x.rom && y.screen == x.screen + [b]
    requires Same(r, y.(cpu := r.cpu)) && Counted(y.cpu, r.cpu, down, m.cpu.pc)
    ensures SendRound(m, r, down)
  {
  }

  lemma SendMoves(m: Mach, down: bool, x: Mach, b: byte, y: Mach, r: Mach)
    requires AtSend(m, down) && Same(x, Fetching(m, 2)) && b == MRead8(m.mem, Hl(m.cpu)) && y == Output(x, SERIAL, b)
    requires Same(r, BlockCount(y, down, true))
    ensures SendRound(m, r, down)
  {
    ByteOut(x, b, y);
    CountMoves(y, down, m.cpu.pc, r);
    Sends(m, x, b, y, r, down);
  }

  lemma SendOnce(m: Mach, down: bool)
    requires AtSend(m, down)
    ensures SendRound(m, Step(m), down)
  {
    var x, b := Fetching(m, 2), MRead8(m.mem, Hl(m.cpu));
    StepSends(m, down, x, b);
    SendMoves(m, down, x, b, Output(x, SERIAL, b), Step(m));
  }

  /** The bytes from HL on, upwards or downwards. */
  function Sent(mem: Mem, hl: u16, down: bool, n: nat): seq<byte>
    decreases n
  {
    if n == 0 then [] else [MRead8(mem, hl)] + Sent(mem, Step16(hl, down), down, n - 1)
  }

  /** `k` bytes further on. */
  function Along(hl: u16, down: bool, k: int): u16 { Wrap(if down then hl - k else hl + k) }

  lemma AlongNext(hl: u16, down: bool, k: int)
    ensures Along(Step16(hl, down), down, k - 1) == Along(hl, down, k) && Along(hl, down, 0) == hl
  {
  }

  lemma {:induction false} SentByte(mem: Mem, hl: u16, down: bool, n: nat, k: nat)
    requires k < n
    ensures |Sent(mem, hl, down, n)| == n
    ensures Sent(mem, hl, down, n)[k] == MRead8(mem, Along(hl, down, k))
    decreases n
  {
    AlongNext(hl, down, k);
    if k > 0 { SentByte(mem, Step16(hl, down), down, n - 1, k - 1); }
    else if n > 1 { SentByte(mem, Step16(hl, down), down, n - 1, 0); }
  }

  /** All `n` bytes are on the screen, B is 0, HL and PC have moved on, and nothing was stored. */
  ghost predicate AllSent(m: Mach, down: bool, n: nat, r: Mach) {
    && r.screen == m.screen + Sent(m.mem, Hl(m.cpu), down, n) && r.mem == m.mem && r.fdc == m.fdc
    && r.cpu.regs[RB] == 0 && r.cpu.pc == m.cpu.pc + 2
    && Hl(r.cpu) == Along(Hl(m.cpu), down, n)
  }

  lemma SentMore(m: Mach, x: Mach, down: bool, n: nat, r: Mach)
    requires n > 1 && SendRound(m, x, down) && x.cpu.pc == m.cpu.pc && AllSent(x, down, n - 1, r)
    ensures AllSent(m, down, n, r)
  {
    AlongNext(Hl(m.cpu), down, n);
    var b := MRead8(m.mem, Hl(m.cpu));
    var rest := Sent(m.mem, Step16(Hl(m.cpu), down), down, n - 1);
    assert m.screen + [b] + rest == m.screen + ([b] + rest);
  }

  lemma SentOne(m: Mach, x: Mach, down: bool)
    requires SendRound(m, x, down) && m.cpu.regs[RB] == 1
    ensures AllSent(m, down, 1, x)
  {
    assert Sent(m.mem, Hl(m.cpu), down, 1) == [MRead8(m.mem, Hl(m.cpu))];
  }

  lemma {:induction false} SendLoop(step: Mach -> Mach, m: Mach, down: bool, n: nat)
    requires AtSend(m, down) && n == if m.cpu.regs[RB] == 0 then 256 else m.cpu.regs[RB] as int
    requires forall x :: AtSend(x, down) ==> SendRound(x, step(x), down)
    ensures AllSent(m, down, n, Iterate(step, m, n))
    decreases n
  {
    var x := step(m);
    if n > 1 {
      SendLoop(step, x, down, n - 1);
      SentMore(m, x, down, n, Iterate(step, x, n - 1));
    } else {
      SentOne(m, x, down);
      assert Iterate(step, x, 0) == x;
    }
  }

  /** Main result: OTIR or OTDR to the serial port shows B bytes (256 for 0) in order, stepped to its end. */
  lemma OtirShows(m: Mach, down: bool, n: nat)
    requires AtSend(m, down) && n == if m.cpu.regs[RB] == 0 then 256 else m.cpu.regs[RB] as int
    ensures AllSent(m, down, n, Iterate(Step, m, n))
  {
    forall x | AtSend(x, down) ensures SendRound(x, Step(x), down) { SendOnce(x, down); }
    SendLoop(Step, m, down, n);
  }

  // ---- single port instructions --------------------------------------------------------------------------------

  predicate IsControl(i: Instr) { !i.Block? && !i.Cb? && !i.Index? && !IsLoad(i) && !IsArith(i) }

  lemma ByControl(m: Mach, i: Instr)
    requires IsControl(i)
    ensures Same(Exec(m, i), ExecControl(m, i))
  {
  }

  lemma Controls(m: Mach, i: Instr)
    requires i.InN? || i.InC? || i.OutN? || i.OutC? || i.Im? || i.Ei? || i.Di?
    ensures Same(Exec(m, i), ExecControl(m, i))
  {
    assert IsControl(i);
    ByControl(m, i);
  }

  lemma KeyRead(m: Mach, ch: byte, x: Mach)
    requires x == Key(m, ch)
    ensures Input(x, SERIAL).1 == ch
    ensures Input(x, SERIAL).0.cpu == m.cpu && Input(x, SERIAL).0.screen == m.screen && Input(x, SERIAL).0.mem == m.mem
  {
    Z80Disk.KeyArrives(m, ch);
  }

  lemma InReads(m: Mach, ch: byte, x: Mach)
    requires x == Exec(Key(m, ch), InN(SERIAL))
    ensures x.cpu == SetA(m.cpu, ch) && x.screen == m.screen
  {
    Controls(Key(m, ch), InN(SERIAL));
    KeyRead(m, ch, Key(m, ch));
  }

  lemma InThroughC(m: Mach, ch: byte, r: int, x: Mach)
    requires 0 <= r < 8 && r != 6 && m.cpu.regs[RC] == SERIAL && x == Exec(Key(m, ch), InC(r))
    ensures x.cpu == m.cpu.(regs := m.cpu.regs[r := ch]) && x.screen == m.screen
  {
    Controls(Key(m, ch), InC(r));
    KeyRead(m, ch, Key(m, ch));
  }

  lemma OutSends(x: Mach)
    ensures Exec(x, OutN(SERIAL)).screen == x.screen + [x.cpu.regs[RA]]
  {
    Controls(x, OutN(SERIAL));
  }

  lemma OutThroughC(x: Mach, r: int)
    requires 0 <= r < 8 && r != 6 && x.cpu.regs[RC] == SERIAL
    ensures Exec(x, OutC(r)).screen == x.screen + [x.cpu.regs[r]]
  {
    Controls(x, OutC(r));
  }

  /** A key read by IN A,(n) and written by OUT (n),A is the next byte on the screen. */
  lemma EchoShows(m: Mach, ch: byte)
    ensures var x := Exec(Key(m, ch), InN(SERIAL));
            x.cpu == SetA(m.cpu, ch) && Exec(x, OutN(SERIAL)).screen == m.screen + [ch]
  {
    var x := Exec(Key(m, ch), InN(SERIAL));
    InReads(m, ch, x);
    OutSends(x);
  }

  /** So is one that goes through any other register, with the port in C. */
  lemma EchoThroughC(m: Mach, ch: byte, r: int)
    requires 0 <= r < 8 && r != 6 && r != RC && m.cpu.regs[RC] == SERIAL
    ensures var x := Exec(Key(m, ch), InC(r));
            x.cpu == m.cpu.(regs := m.cpu.regs[r := ch]) && Exec(x, OutC(r)).screen == m.screen + [ch]
  {
    var x := Exec(Key(m, ch), InC(r));
    InThroughC(m, ch, r, x);
    OutThroughC(x, r);
  }

  /** IN without a register reads nothing, and OUT without one sends 0. */
  lemma NoRegister(m: Mach)
    ensures Same(Exec(m, InC(6)), m)
    ensures m.cpu.regs[RC] == SERIAL ==> Exec(m, OutC(6)).screen == m.screen + [0]
  {
    Controls(m, InC(6));
    Controls(m, OutC(6));
  }

  /** The control port: a reset leaves the receiver empty and the sender ready, any other value changes no status. */
  lemma ControlWritten(m: Mach, v: byte)
    ensures Input(Output(m, 0x80, v), 0x80).1 == if v % 4 == 3 then 2 else Input(m, 0x80).1
  {
  }

  /** INI and IND store the key at HL, where there is RAM. */
  lemma KeyStored(m: Mach, ch: byte, down: bool)
    requires m.cpu.regs[RC] == SERIAL
    ensures var x := Exec(Key(m, ch), Block(if down then 5 else 4, 2));
            x.mem == MWrite8(m.mem, m.rom, Hl(m.cpu), ch) && Hl(x.cpu) == Step16(Hl(m.cpu), down)
  {
    ExecIsBlockOp(Key(m, ch), Block(if down then 5 else 4, 2));
    KeyRead(m, ch, Key(m, ch));
  }

  // ---- control registers ------------------------------------------------------------------------------------------

  lemma ToControl(m: Mach, r: bool)
    ensures Same(Exec(m, if r then LdRA else LdIA),
                 if r then m.(cpu := m.cpu.(r := m.cpu.regs[RA])) else m.(cpu := m.cpu.(i := m.cpu.regs[RA])))
  {
    assert IsLoad(if r then LdRA else LdIA);
  }

  lemma FromControl(m: Mach, r: bool)
    ensures Same(Exec(m, if r then LdAR else LdAI),
                 m.(cpu := Refresh(SetA(m.cpu, if r then m.cpu.r else m.cpu.i))))
  {
    assert IsLoad(if r then LdAR else LdAI);
  }

  /** A goes through I, or through R, and back; PV then tells whether interrupts were enabled. */
  lemma ControlKeeps(m: Mach, r: bool)
    ensures var x := Exec(Exec(m, if r then LdRA else LdIA), if r then LdAR else LdAI);
            && x.cpu.regs == m.cpu.regs && ZeroSign(m.cpu.regs[RA], x.cpu.f)
            && x.cpu.f.pv == m.cpu.iff2 && x.cpu.f.c == m.cpu.f.c
  {
    ToControl(m, r);
    FromControl(Exec(m, if r then LdRA else LdIA), r);
    assert m.cpu.regs[RA := m.cpu.regs[RA]] == m.cpu.regs;
  }

  lemma ModeSet(m: Mach, y: int)
    ensures Same(Exec(m, Im(y)), m.(cpu := m.cpu.(im := ImMode(y))))
  {
    Controls(m, Im(y));
  }

  lemma EnableSet(m: Mach, on: bool)
    ensures Same(Exec(m, if on then Ei else Di), m.(cpu := m.cpu.(iff1 := on, iff2 := on)))
  {
    Controls(m, if on then Ei else Di);
  }

  /** RETI leaves interrupts as they are; RETN and its copies bring back the second flag. */
  lemma ReturnGates(m: Mach, y: int)
    ensures var r := Exec(m, RetN(y));
            r.cpu.iff1 == (if y == 1 then m.cpu.iff1 else m.cpu.iff2) && r.cpu.iff2 == m.cpu.iff2
  {
    assert IsControl(RetN(y));
    ByControl(m, RetN(y));
  }

  lemma Gated(x: Mach)
    ensures if x.cpu.iff1 && x.cpu.im == 1 then Interrupt(x).cpu.pc == 0x38 && !Interrupt(x).cpu.iff1
            else Same(Interrupt(x), x)
  {
  }

  /** An interrupt is taken if and only if EI came last and the mode set is 1; IM 0 and 2 leave it untaken. */
  lemma InterruptGated(m: Mach, y: int, on: bool)
    requires 0 <= y < 8
    ensures var x := Exec(Exec(m, Im(y)), if on then Ei else Di);
            if on && y in {2, 6} then Interrupt(x).cpu.pc == 0x38 && !Interrupt(x).cpu.iff1 else Same(Interrupt(x), x)
  {
    ModeSet(m, y);
    EnableSet(Exec(m, Im(y)), on);
    Gated(Exec(Exec(m, Im(y)), if on then Ei else Di));
  }
}
