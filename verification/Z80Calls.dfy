/**
 Nested calls over whole runs: when calls, interrupts and pushes are closed in order by returns and pops, and
 no write hits a return address, every call and every interrupt comes back to where it was made.
 */
module Z80Calls {
  import opened Machine
  import opened Z80Alu
  import opened Z80
  import opened Z80Exec
  import opened Z80Stack

  // ---- what instructions do to the stack pointer ----------------------------------------------------------

  datatype Kind = Enters | Leaves | Stores | Takes | Other

  function KindOf(i: Instr, f: Flags): Kind {
    if Calling(i, f).To? then Enters
    else if Returning(i, f) || i.RetN? then Leaves
    else if i.Push? || (i.Index? && i.x.XPush?) then Stores
    else if (i.Pop? && 0 <= i.p < 4) || (i.Index? && i.x.XPop?) then Takes
    else Other
  }

  /** The instructions left that can set the stack pointer. */
  predicate SetsSp(i: Instr) {
    match i
    case LdPair(p, _) => !(0 <= p < 3)
    case LdPairMem(p, _) => !(0 <= p < 3)
    case IncPair(p) => !(0 <= p < 3)
    case DecPair(p) => !(0 <= p < 3)
    case Pop(p) => !(0 <= p < 4)
    case LdSpHl => true
    case Index(_, x) => x.XLdSp?
    case _ => false
  }

  lemma {:induction false} SectorKeepsSp(m: Mach, dma: u16, offset: nat, i: nat)
    requires i <= FDC_SECTOR
    ensures ReadSector(m, dma, offset, i).cpu == m.cpu
    decreases FDC_SECTOR - i
  {
    if i < FDC_SECTOR && offset + i < |m.fdc.disk| {
      SectorKeepsSp(SetMem8(m, Wrap(dma + i), m.fdc.disk[offset + i]), dma, offset, i + 1);
    }
  }

  lemma {:induction false} TransferKeepsSp(m: Mach, cmd: byte, lba: u16, dma: u16, count: nat)
    ensures Transfer(m, cmd, lba, dma, count).cpu == m.cpu
    decreases count
  {
    if count > 0 {
      SectorKeepsSp(m, dma, lba * FDC_SECTOR, 0);
      var m1 := if cmd == 1 then ReadSector(m, dma, lba * FDC_SECTOR, 0) else m;
      var m2 := if cmd == 2 then WriteSector(m1, dma, lba * FDC_SECTOR) else m1;
      assert m2.cpu == m1.cpu;
      TransferKeepsSp(m2, cmd, Wrap(lba + 1), Wrap(dma + FDC_SECTOR), count - 1);
    }
  }

  lemma PortsKeepSp(m: Mach, port: byte, v: byte)
    ensures Output(m, port, v).cpu == m.cpu && Input(m, port).0.cpu == m.cpu
  {
    var m1 := m.(fdc := m.fdc.(status := 2, lba := 0, dma := 0, count := 0));
    TransferKeepsSp(m1, v, m.fdc.lba, m.fdc.dma, m.fdc.count);
  }

  lemma CountKeepsSp(m: Mach, down: bool, repeat: bool)
    ensures BlockCount(m, down, repeat).cpu.sp == m.cpu.sp
  {
  }

  lemma CopyKeepsSp(m: Mach, down: bool, repeat: bool)
    ensures BlockLoad(m, down, repeat).cpu.sp == m.cpu.sp && BlockCompare(m, down, repeat).cpu.sp == m.cpu.sp
  {
  }

  lemma BlockKeepsSp(m: Mach, y: int, z: int)
    ensures BlockOp(m, y, z).cpu.sp == m.cpu.sp
  {
    var v, down, repeat := MRead8(m.mem, Hl(m.cpu)), y % 2 == 1, y / 2 % 2 == 1;
    var (m1, w) := Input(m, m.cpu.regs[RC]);
    PortsKeepSp(m, m.cpu.regs[RC], v);
    CopyKeepsSp(m, down, repeat);
    CountKeepsSp(SetMem8(m1, Hl(m.cpu), w), down, repeat);
    CountKeepsSp(Output(m, m.cpu.regs[RC], v), down, repeat);
  }

  lemma CbKeepsSp(m: Mach, op: int)
    requires 0 <= op < 256
    ensures CbOp(m, op).cpu.sp == m.cpu.sp
  {
  }

  predicate OnBytes(x: IndexOp) { x.XIncR? || x.XDecR? || x.XIncM? || x.XDecM? }

  lemma IndexCountsKeepSp(m: Mach, reg: IndexReg, x: IndexOp)
    requires OnBytes(x)
    ensures ExecIndex(m, reg, x).cpu.sp == m.cpu.sp
  {
  }

  lemma IndexKeepsSp(m: Mach, reg: IndexReg, x: IndexOp)
    requires !x.XPush? && !x.XPop? && !x.XLdSp?
    ensures ExecIndex(m, reg, x).cpu.sp == m.cpu.sp
  {
    if OnBytes(x) { IndexCountsKeepSp(m, reg, x); }
  }

  predicate Exchanges(i: Instr) { i.ExAf? || i.Exx? || i.ExDeHl? || i.ExSpHl? }

  lemma ExchangeKeepsSp(m: Mach, i: Instr)
    requires Exchanges(i)
    ensures ExecLoad(m, i).cpu.sp == m.cpu.sp
  {
  }

  lemma LoadKeepsSp(m: Mach, i: Instr)
    requires !i.Push? && !i.Pop? && !SetsSp(i) && !Exchanges(i)
    ensures ExecLoad(m, i).cpu.sp == m.cpu.sp
  {
  }

  predicate OnPair(i: Instr) { i.IncPair? || i.DecPair? || i.AddHl? || i.AdcHl? || i.SbcHl? }

  lemma PairKeepsSp(m: Mach, i: Instr)
    requires OnPair(i) && !SetsSp(i)
    ensures ExecArith(m, i).cpu.sp == m.cpu.sp
  {
  }

  lemma ArithKeepsSp(m: Mach, i: Instr)
    requires !OnPair(i)
    ensures ExecArith(m, i).cpu.sp == m.cpu.sp
  {
  }

  predicate OnPort(i: Instr) { i.OutN? || i.InN? || i.InC? || i.OutC? }

  lemma PortKeepsSp(m: Mach, i: Instr)
    requires OnPort(i)
    ensures ExecControl(m, i).cpu.sp == m.cpu.sp
  {
    match i
    case OutN(n) => PortsKeepSp(m, n, m.cpu.regs[RA]);
    case InN(n) => PortsKeepSp(m, n, 0);
    case InC(r) => PortsKeepSp(m, m.cpu.regs[RC], 0);
    case OutC(r) => PortsKeepSp(m, m.cpu.regs[RC], if r == 6 then 0 else GetR(m, r));
  }

  lemma ControlKeepsSp(m: Mach, i: Instr)
    requires !Calling(i, m.cpu.f).To? && !Returning(i, m.cpu.f) && !i.RetN? && !OnPort(i)
    ensures ExecControl(m, i).cpu.sp == m.cpu.sp
  {
  }

  /** All other instructions keep the stack pointer. */
  lemma OthersKeepSp(m: Mach, i: Instr)
    requires KindOf(i, m.cpu.f).Other? && !SetsSp(i)
    ensures Exec(m, i).cpu.sp == m.cpu.sp
  {
    if i.Block? { BlockKeepsSp(m, i.y, i.z); }
    else if i.Cb? { if 0 <= i.op < 256 { CbKeepsSp(m, i.op); } }
    else if i.Index? { IndexKeepsSp(m, i.reg, i.x); }
    else if IsLoad(i) { if Exchanges(i) { ExchangeKeepsSp(m, i); } else { LoadKeepsSp(m, i); } }
    else if IsArith(i) { if OnPair(i) { PairKeepsSp(m, i); } else { ArithKeepsSp(m, i); } }
    else if OnPort(i) { PortKeepsSp(m, i); }
    else { ControlKeepsSp(m, i); }
  }

  lemma StoresWord(m: Mach, i: Instr)
    requires KindOf(i, m.cpu.f).Stores? && StackInRam(m)
    ensures exists v: u16 :: WordOn(m, v, Exec(m, i))
  {
    var v := if i.Push? then Get2(m.cpu, i.p) else GetIndex(m.cpu, i.reg);
    Pushed(m, v);
    if i.Push? { ExecPush(m, i.p); } else { assert Exec(m, i) == Push16(m, v); }
  }

  /** A word has gone off the stack. */
  predicate WordOff(m: Mach, r: Mach) { r.cpu.sp == Wrap(m.cpu.sp + 2) && r.mem == m.mem }

  lemma TakesWord(m: Mach, i: Instr)
    requires KindOf(i, m.cpu.f).Takes?
    ensures WordOff(m, Exec(m, i))
  {
    if i.Pop? { ExecPop(m, i.p); }
  }

  lemma LeavesWord(m: Mach, i: Instr)
    requires KindOf(i, m.cpu.f).Leaves?
    ensures WordOff(m, Exec(m, i)) && Exec(m, i).cpu.pc == MRead16(m.mem, m.cpu.sp)
  {
    if Returning(i, m.cpu.f) { ExecReturn(m, i); } else { LeavesByRetN(m, i); }
  }

  lemma LeavesByRetN(m: Mach, i: Instr)
    requires i.RetN?
    ensures WordOff(m, Exec(m, i)) && Exec(m, i).cpu.pc == MRead16(m.mem, m.cpu.sp)
  {
  }

  // ---- what is open on the stack ----------------------------------------------------------------------------

  /** A word pushed since the run began: a return address, or data. */
  datatype Item = Link(to: u16) | Data

  /** What an event does to the stack. */
  function Doing(m: Mach, e: Event): Kind {
    match e
    case Tick => if m.cpu.halt then Other else KindOf(Decode(m.mem, m.cpu.pc).i, m.cpu.f)
    case Irq => if !m.cpu.halt && m.cpu.iff1 && m.cpu.im == 1 then Enters else Other
    case KeyIn(_) => Other
  }

  /** Where the program goes on after a call, or after an interrupt. */
  function Resume(m: Mach, e: Event): u16 { if e.Tick? then Next(m) else m.cpu.pc }

  /** The open words after an event of that kind; `to` is where a call would return to. */
  function Changed(kind: Kind, items: seq<Item>, to: u16): seq<Item> {
    match kind
    case Enters => items + [Link(to)]
    case Stores => items + [Data]
    case Other => items
    case _ => if items == [] then [] else items[..|items| - 1]
  }

  function After(m: Mach, items: seq<Item>, e: Event): seq<Item> { Changed(Doing(m, e), items, Resume(m, e)) }

  /** The words are on the stack below `top`, the first of them highest; return addresses are as pushed. */
  ghost predicate Held(m: Mach, top: u16, items: seq<Item>) {
    && m.cpu.sp == top - 2 * |items|
    && forall k :: 0 <= k < |items| && items[k].Link? ==> MRead16(m.mem, top - 2 - 2 * k) == items[k].to
  }

  /** The event writes to no open return address. */
  ghost predicate Spares(m: Mach, top: u16, items: seq<Item>, r: Mach) {
    forall k :: 0 <= k < |items| && items[k].Link? && 2 + 2 * k <= top ==>
                  MRead16(r.mem, top - 2 - 2 * k) == MRead16(m.mem, top - 2 - 2 * k)
  }

  /** The stack stays in RAM, returns close calls, pops close pushes and nothing else hits a return address. */
  ghost predicate Allowed(kind: Kind, m: Mach, top: u16, items: seq<Item>, r: Mach) {
    match kind
    case Enters => StackInRam(m)
    case Stores => StackInRam(m)
    case Leaves => items != [] && items[|items| - 1].Link?
    case Takes => items != [] && items[|items| - 1].Data?
    case Other => Spares(m, top, items, r)
  }

  /** So it is with this event, and it sets the stack pointer in no other way. */
  ghost predicate Obeys(m: Mach, top: u16, items: seq<Item>, e: Event) {
    && Allowed(Doing(m, e), m, top, items, Happen(m, e))
    && (e.Tick? && !m.cpu.halt ==> !SetsSp(Decode(m.mem, m.cpu.pc).i))
  }

  lemma HeldOn(m: Mach, top: u16, items: seq<Item>, v: u16, r: Mach, item: Item)
    requires Held(m, top, items) && StackInRam(m) && WordOn(m, v, r) && (item == Data || item == Link(v))
    ensures Held(r, top, items + [item])
  {
    forall k | 0 <= k < |items| && items[k].Link?
      ensures MRead16(r.mem, top - 2 - 2 * k) == items[k].to
    {
      assert top - 2 - 2 * k >= m.cpu.sp;
    }
  }

  lemma HeldOff(m: Mach, top: u16, items: seq<Item>, r: Mach)
    requires Held(m, top, items) && items != [] && WordOff(m, r)
    ensures Held(r, top, items[..|items| - 1])
    ensures var last := items[|items| - 1]; last.Link? ==> MRead16(m.mem, m.cpu.sp) == last.to
  {
  }

  lemma HeldStill(m: Mach, top: u16, items: seq<Item>, r: Mach)
    requires Held(m, top, items) && Spares(m, top, items, r) && r.cpu.sp == m.cpu.sp
    ensures Held(r, top, items)
  {
  }

  /** The open words are held still; a return has gone to the innermost return address. */
  ghost predicate Holds(kind: Kind, m: Mach, top: u16, items: seq<Item>, to: u16, r: Mach) {
    && Held(r, top, Changed(kind, items, to))
    && (kind.Leaves? && items != [] && items[|items| - 1].Link? ==> r.cpu.pc == items[|items| - 1].to)
  }

  lemma ExecHolds(m: Mach, top: u16, items: seq<Item>, d: Fetched, kind: Kind, r: Mach)
    requires kind == KindOf(d.i, m.cpu.f) && !SetsSp(d.i) && r == Exec(Fetching(m, d.len), d.i)
    requires Held(m, top, items) && Allowed(kind, m, top, items, r)
    ensures Holds(kind, m, top, items, Wrap(m.cpu.pc + d.len), r)
  {
    var x := Fetching(m, d.len);
    match kind
    case Enters =>
      CallExecuted(m, d);
      HeldOn(m, top, items, Wrap(m.cpu.pc + d.len), r, Link(Wrap(m.cpu.pc + d.len)));
    case Stores =>
      StoresWord(x, d.i);
      var v: u16 :| WordOn(x, v, r);
      HeldOn(m, top, items, v, r, Data);
    case Leaves =>
      LeavesWord(x, d.i);
      HeldOff(m, top, items, r);
    case Takes =>
      TakesWord(x, d.i);
      HeldOff(m, top, items, r);
    case Other =>
      OthersKeepSp(x, d.i);
      HeldStill(m, top, items, r);
  }

  lemma TickHolds(m: Mach, top: u16, items: seq<Item>, d: Fetched, kind: Kind, r: Mach)
    requires d == Decode(m.mem, m.cpu.pc) && kind == KindOf(d.i, m.cpu.f) && r == Step(m) && !SetsSp(d.i)
    requires Held(m, top, items) && Allowed(kind, m, top, items, r)
    ensures Holds(kind, m, top, items, Wrap(m.cpu.pc + d.len), r)
  {
    StepFetches(m, d);
    ExecHolds(m, top, items, d, kind, r);
  }

  lemma TickDoes(m: Mach, d: Fetched)
    requires !m.cpu.halt && d == Decode(m.mem, m.cpu.pc)
    ensures Doing(m, Tick) == KindOf(d.i, m.cpu.f) && Resume(m, Tick) == Wrap(m.cpu.pc + d.len)
  {
  }

  lemma ObeysTick(m: Mach, top: u16, items: seq<Item>, d: Fetched, kind: Kind)
    requires !m.cpu.halt && Obeys(m, top, items, Tick) && d == Decode(m.mem, m.cpu.pc) && kind == Doing(m, Tick)
    ensures Allowed(kind, m, top, items, Step(m)) && !SetsSp(d.i)
  {
  }

  lemma TickObeyed(m: Mach, top: u16, items: seq<Item>)
    requires !m.cpu.halt && Held(m, top, items) && Obeys(m, top, items, Tick)
    ensures Holds(Doing(m, Tick), m, top, items, Resume(m, Tick), Step(m))
  {
    var d := Decode(m.mem, m.cpu.pc);
    var kind := Doing(m, Tick);
    TickDoes(m, d);
    ObeysTick(m, top, items, d, kind);
    TickHolds(m, top, items, d, kind, Step(m));
  }

  lemma IrqObeyed(m: Mach, top: u16, items: seq<Item>)
    requires Held(m, top, items) && Obeys(m, top, items, Irq)
    ensures Holds(Doing(m, Irq), m, top, items, Resume(m, Irq), Happen(m, Irq))
  {
    if Doing(m, Irq).Enters? {
      Interrupted(m);
      HeldOn(m, top, items, m.cpu.pc, Interrupt(m), Link(m.cpu.pc));
    }
  }

  /** Every event that obeys keeps the open words. */
  lemma EventHolds(m: Mach, top: u16, items: seq<Item>, e: Event)
    requires Held(m, top, items) && Obeys(m, top, items, e)
    ensures Holds(Doing(m, e), m, top, items, Resume(m, e), Happen(m, e))
  {
    if e.Tick? && !m.cpu.halt { TickObeyed(m, top, items); }
    else if e.Irq? { IrqObeyed(m, top, items); }
    else { HeldStill(m, top, items, Happen(m, e)); }
  }

  // ---- whole runs -----------------------------------------------------------------------------------------------

  /** Every event obeys, and the last one, and none before it, closes the outermost word. */
  ghost predicate Balanced(m: Mach, top: u16, items: seq<Item>, es: seq<Event>)
    decreases |es|
  {
    if items == [] then es == []
    else es != [] && Obeys(m, top, items, es[0])
         && Balanced(Happen(m, es[0]), top, After(m, items, es[0]), es[1..])
  }

  lemma {:induction false} ComesBack(m: Mach, top: u16, items: seq<Item>, es: seq<Event>)
    requires items != [] && items[0].Link? && Held(m, top, items) && Balanced(m, top, items, es)
    ensures Run(m, es).cpu.pc == items[0].to && Run(m, es).cpu.sp == top
    decreases |es|
  {
    var m1, rest := Happen(m, es[0]), After(m, items, es[0]);
    EventHolds(m, top, items, es[0]);
    if rest == [] {
      assert |items| == 1 && es[1..] == [];
    } else {
      ComesBack(m1, top, rest, es[1..]);
    }
  }

  /**
   Main result: for every call, restart or interrupt taken and every run after it in which calls, interrupts
   and pushes nest, are closed in order and have no return address overwritten, the event that closes it goes
   on where the program left off, with the stack pointer as it was.
   */
  lemma NestedCallsReturn(m: Mach, e: Event, es: seq<Event>)
    requires Doing(m, e).Enters? && StackInRam(m)
    requires Balanced(Happen(m, e), m.cpu.sp, [Link(Resume(m, e))], es)
    ensures Run(m, [e] + es).cpu.pc == Resume(m, e) && Run(m, [e] + es).cpu.sp == m.cpu.sp
  {
    var items := [Link(Resume(m, e))];
    Entered(m, e);
    ComesBack(Happen(m, e), m.cpu.sp, items, es);
    assert ([e] + es)[1..] == es;
  }

  lemma EnteredBy(m: Mach, v: u16, r: Mach)
    requires StackInRam(m) && WordOn(m, v, r)
    ensures Held(r, m.cpu.sp, [Link(v)])
  {
    HeldOn(m, m.cpu.sp, [], v, r, Link(v));
    assert [] + [Link(v)] == [Link(v)];
  }

  lemma Entered(m: Mach, e: Event)
    requires Doing(m, e).Enters? && StackInRam(m)
    ensures Held(Happen(m, e), m.cpu.sp, [Link(Resume(m, e))])
  {
    if e.Tick? {
      Called(m);
      EnteredBy(m, Next(m), Step(m));
    } else {
      Interrupted(m);
      EnteredBy(m, m.cpu.pc, Interrupt(m));
    }
  }
}
