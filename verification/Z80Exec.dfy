/** What each decoded instruction does to the machine, including port I/O and disk transfers. */
module Z80Exec {
  import opened Machine
  import opened Z80Alu
  import opened Z80

  type Regs = r: seq<byte> | |r| == 8 witness [0, 0, 0, 0, 0, 0, 0, 0]

  const RB := 0
  const RC := 1
  const RD := 2
  const RH := 4
  const RL := 5
  const RA := 7

  datatype Cpu = Cpu(
    regs: Regs, shadow: Regs, f: Flags, sf: Flags,
    ix: u16, iy: u16, pc: u16, sp: u16, wz: u16,
    i: byte, r: byte, im: int, iff1: bool, iff2: bool, halt: bool, cycles: nat)

  /** The disk controller; `disk` is the host image file. */
  datatype Fdc = Fdc(status: int, count: byte, lba: u16, dma: u16, present: bool, disk: seq<byte>)

  datatype Acia = Acia(ctrl: byte, status: byte, transmit: byte, receive: byte)

  datatype Mach = Mach(cpu: Cpu, mem: Mem, rom: u16, fdc: Fdc, acia: Acia, screen: seq<byte>)

  /** Nothing below the ROM limit differs. */
  predicate SameRom(m: Mach, r: Mach) {
    r.rom == m.rom && forall a :: 0 <= a < MEM_SIZE && a < m.rom ==> r.mem[a] == m.mem[a]
  }

  // ---- registers ---------------------------------------------------------------------------------

  function Pair(r: Regs, i: int): u16
    requires 0 <= i < 7
  {
    r[i + 1] as int + 256 * (r[i] as int)
  }

  function SetPair(r: Regs, i: int, v: u16): Regs
    requires 0 <= i < 7
  {
    r[i := Hi(v)][i + 1 := Lo(v)]
  }

  function Bc(c: Cpu): u16 { Pair(c.regs, RB) }

  function De(c: Cpu): u16 { Pair(c.regs, RD) }

  function Hl(c: Cpu): u16 { Pair(c.regs, RH) }

  function SetBc(c: Cpu, v: u16): Cpu { c.(regs := SetPair(c.regs, RB, v)) }

  function SetDe(c: Cpu, v: u16): Cpu { c.(regs := SetPair(c.regs, RD, v)) }

  function SetHl(c: Cpu, v: u16): Cpu { c.(regs := SetPair(c.regs, RH, v)) }

  function SetA(c: Cpu, v: byte): Cpu { c.(regs := c.regs[RA := v]) }

  /** Pairs BC, DE, HL, SP. */
  function Get1(c: Cpu, p: int): u16 {
    if p == 0 then Bc(c) else if p == 1 then De(c) else if p == 2 then Hl(c) else c.sp
  }

  function Set1(c: Cpu, p: int, v: u16): Cpu {
    if p == 0 then SetBc(c, v) else if p == 1 then SetDe(c, v) else if p == 2 then SetHl(c, v) else c.(sp := v)
  }

  function Weight(b: bool, w: int): int { if b then w else 0 }

  function Pack(f: Flags): byte {
    Weight(f.s, 128) + Weight(f.z, 64) + Weight(f.y, 32) + Weight(f.h, 16)
    + Weight(f.x, 8) + Weight(f.pv, 4) + Weight(f.n, 2) + Weight(f.c, 1)
  }

  function Unpack(b: byte): Flags {
    Flags(Bit(b, 128), Bit(b, 64), Bit(b, 32), Bit(b, 16), Bit(b, 8), Bit(b, 4), Bit(b, 2), Bit(b, 1))
  }

  /** Pairs BC, DE, HL, AF. */
  function Get2(c: Cpu, p: int): u16 {
    if p == 3 then Pack(c.f) as int + 256 * (c.regs[RA] as int) else Get1(c, p)
  }

  function Set2(c: Cpu, p: int, v: u16): Cpu {
    if p == 3 then SetA(c, Hi(v)).(f := Unpack(Lo(v))) else Set1(c, p, v)
  }

  function GetR(m: Mach, r: int): byte {
    if 0 <= r < 8 && r != 6 then m.cpu.regs[r] else MRead8(m.mem, Hl(m.cpu))
  }

  function SetMem8(m: Mach, a: u16, v: byte): (r: Mach)
    ensures SameRom(m, r)
  {
    m.(mem := MWrite8(m.mem, m.rom, a, v))
  }

  function SetMem16(m: Mach, a: u16, v: u16): (r: Mach)
    ensures SameRom(m, r)
  {
    m.(mem := MWrite16(m.mem, m.rom, a, v))
  }

  function SetR(m: Mach, r: int, v: byte): (m': Mach)
    ensures SameRom(m, m')
  {
    if 0 <= r < 8 && r != 6 then m.(cpu := m.cpu.(regs := m.cpu.regs[r := v])) else SetMem8(m, Hl(m.cpu), v)
  }

  function Push16(m: Mach, v: u16): (r: Mach)
    ensures SameRom(m, r)
  {
    var sp := Wrap(m.cpu.sp - 2);
    SetMem16(m.(cpu := m.cpu.(sp := sp)), sp, v)
  }

  /** The machine after a pop, and the value popped. */
  function Pop16(m: Mach): (r: (Mach, u16))
    ensures SameRom(m, r.0)
  {
    (m.(cpu := m.cpu.(sp := Wrap(m.cpu.sp + 2))), MRead16(m.mem, m.cpu.sp))
  }

  // ---- logic, shifts, 16-bit arithmetic --------------------------------------------------------------

  function And(a: byte, b: byte): byte { Bitwise8(Both, a, b) }

  function Or(a: byte, b: byte): byte { Bitwise8(Either, a, b) }

  function Xor(a: byte, b: byte): byte { Bitwise8(Unlike, a, b) }

  predicate Even(b: nat, bits: nat) {
    bits == 0 || (if b % 2 == 0 then Even(b / 2, bits - 1) else !Even(b / 2, bits - 1))
  }

  /** Bits 5 and 3 of a result go to the two undocumented flags. */
  function Yx(f: Flags, r: byte): Flags { f.(y := Bit(r, 32), x := Bit(r, 8)) }

  function Logic(r: byte, h: bool): Flags { Flags(Neg8(r), r == 0, Bit(r, 32), h, Bit(r, 8), Even(r, 8), false, false) }

  function Inc8(f: Flags, a: byte): (byte, Flags) {
    var r: byte := (a + 1) as int % 256;
    (r, Flags(Neg8(r), r == 0, Bit(r, 32), Bit(a, 16) != Bit(r, 16), Bit(r, 8), a == 0x7F, false, f.c))
  }

  function Dec8(f: Flags, a: byte): (byte, Flags) {
    var r: byte := (a as int - 1) % 256;
    (r, Flags(Neg8(r), r == 0, Bit(r, 32), Bit(a, 16) != Bit(r, 16), Bit(r, 8), a == 0x80, true, f.c))
  }

  /** The eight ALU operations: result and flags; `cp8` gives back its operand. */
  function AluResult(f: Flags, op: int, a: byte, b: byte): (byte, Flags) {
    if op == 0 then Add8(a, b)
    else if op == 1 then Adc8(f, a, b)
    else if op == 2 then Sub8(a, b)
    else if op == 3 then Sbc8(f, a, b)
    else if op == 4 then (And(a, b), Logic(And(a, b), true))
    else if op == 5 then (Xor(a, b), Logic(Xor(a, b), false))
    else if op == 6 then (Or(a, b), Logic(Or(a, b), false))
    else (a, Cp8(a, b))
  }

  function AluOp(c: Cpu, op: int, b: byte): Cpu {
    var (r, f) := AluResult(c.f, op, c.regs[RA], b);
    SetA(c, r).(f := f)
  }

  predicate Bit12(v: int) { v / 0x1000 % 2 == 1 }

  predicate Half(a: u16, b: u16, r: u16) { (Bit12(a) != Bit12(b)) != Bit12(r) }

  function Add16(f: Flags, a: u16, b: u16): (u16, Flags) {
    var r := Wrap(a + b);
    (r, Yx(f, Hi(r)).(h := Half(a, b, r), c := a + b >= 0x1_0000, n := false))
  }

  /** The code takes the subtraction's overflow rule for ADC HL too. */
  function Wide(a: u16, b: u16, t: int, n: bool): (u16, Flags) {
    var r := Wrap(t);
    (r, Flags(r >= 0x8000, r == 0, Bit(Hi(r), 32), Half(a, b, r), Bit(Hi(r), 8),
              (a >= 0x8000) != (b >= 0x8000) && (a >= 0x8000) != (r >= 0x8000), n, t < 0 || t >= 0x1_0000))
  }

  /** A byte moved one place to the left, with `low` coming in, and one to the right, with `top` coming in. */
  function Left(a: byte, low: int): byte
    requires 0 <= low <= 1
  {
    if a < 0x80 then 2 * (a as int) + low else 2 * (a as int) - 0x100 + low
  }

  function Right(a: byte, top: int): byte
    requires 0 <= top <= 1
  {
    a as int / 2 + 0x80 * top
  }

  function Shifted(r: byte, c: bool): Flags { Logic(r, false).(c := c) }

  /** RLC, RRC, RL, RL (in place of RR), SLA, SRA, SLL, SRL. */
  function Shift(f: Flags, y: int, a: byte): (byte, Flags) {
    var top, low, cin := a / 128, a % 2, Carry(f);
    if y == 0 then var r: byte := Left(a, top); (r, Shifted(r, top == 1))
    else if y == 1 then var r: byte := Right(a, low); (r, Shifted(r, low == 1))
    else if y == 2 || y == 3 then var r: byte := Left(a, cin); (r, Shifted(r, top == 1))
    else if y == 4 then var r: byte := Left(a, 0); (r, Shifted(r, top == 1))
    else if y == 5 then var r: byte := Right(a, top); (r, Shifted(r, low == 1))
    else if y == 6 then var r: byte := Left(a, 1); (r, Shifted(r, top == 1))
    else var r: byte := Right(a, 0); (r, Shifted(r, low == 1))
  }

  function BitTest(f: Flags, a: byte, y: nat): Flags {
    var on := TestBit(a, y);
    f.(pv := !on, z := !on, h := true, n := false, s := on && Neg8(a), y := on && Bit(a, 32), x := on && Bit(a, 8))
  }

  function ResBit(a: byte, y: int): byte
    requires 0 <= y < 8
  {
    BitBound(a, y, 8);
    assert Pow2(8) == 256;
    ClearBit(a, y)
  }

  function PutBit(a: byte, y: int): byte
    requires 0 <= y < 8
  {
    BitBound(a, y, 8);
    assert Pow2(8) == 256;
    SetBit(a, y)
  }

  /** RLCA, RRCA, RLA, RRA, DAA (does nothing), CPL, SCF, CCF. */
  function Accumulator(c: Cpu, y: int): Cpu {
    var a := c.regs[RA];
    var top, low, cin := a / 128, a % 2, Carry(c.f);
    if y == 0 then
      var r: byte := Left(a, top);
      SetA(c, r).(f := Yx(c.f, r).(c := top == 1, n := false, h := false))
    else if y == 1 then var r: byte := Right(a, low); SetA(c, r).(f := Yx(c.f, r).(c := low == 1))
    else if y == 2 then
      var r: byte := Left(a, cin);
      SetA(c, r).(f := Yx(c.f, r).(c := top == 1, n := false, h := false))
    else if y == 3 then var r: byte := Right(a, cin); SetA(c, r).(f := Yx(c.f, r).(c := low == 1))
    else if y == 4 then c
    else if y == 5 then var r: byte := 255 - a; SetA(c, r).(f := Yx(c.f, r).(n := true, h := true))
    else if y == 6 then c.(f := Yx(c.f, a).(c := true, n := false, h := false))
    else c.(f := Yx(c.f, a).(h := c.f.c, c := !c.f.c, n := false))
  }

  predicate Cond(f: Flags, c: int) {
    if c == 0 then !f.z else if c == 1 then f.z else if c == 2 then !f.c else if c == 3 then f.c
    else if c == 4 then !f.pv else if c == 5 then f.pv else if c == 6 then !f.s else f.s
  }

  // ---- ports ---------------------------------------------------------------------------------------------

  const FDC_SECTOR := 512

  /** Bytes `i` and up of one sector go to memory through `mwrite8`; the end of the image stops it. */
  function ReadSector(m: Mach, dma: u16, offset: nat, i: nat): (r: Mach)
    requires i <= FDC_SECTOR
    ensures SameRom(m, r)
    decreases FDC_SECTOR - i
  {
    if i == FDC_SECTOR || offset + i >= |m.fdc.disk| then m
    else ReadSector(SetMem8(m, Wrap(dma + i), m.fdc.disk[offset + i]), dma, offset, i + 1)
  }

  /** One sector of memory goes to the image, which grows if need be. */
  function WriteSector(m: Mach, dma: u16, offset: nat): (r: Mach)
    ensures SameRom(m, r)
  {
    var d := m.fdc.disk;
    var padded: seq<byte> := if |d| < offset then d + seq(offset - |d|, _ => 0) else d;
    var data := seq<byte>(FDC_SECTOR, i => MRead8(m.mem, Wrap(dma + i)));
    var tail := if offset + FDC_SECTOR < |padded| then padded[offset + FDC_SECTOR..] else [];
    m.(fdc := m.fdc.(disk := padded[..offset] + data + tail))
  }

  function Transfer(m: Mach, cmd: byte, lba: u16, dma: u16, count: nat): (r: Mach)
    ensures SameRom(m, r)
    decreases count
  {
    if count == 0 then m
    else
      var m1 := if cmd == 1 then ReadSector(m, dma, lba * FDC_SECTOR, 0) else m;
      var m2 := if cmd == 2 then WriteSector(m1, dma, lba * FDC_SECTOR) else m1;
      Transfer(m2, cmd, Wrap(lba + 1), Wrap(dma + FDC_SECTOR), count - 1)
  }

  function FdcCmd(m: Mach, cmd: byte): (r: Mach)
    ensures SameRom(m, r)
  {
    if !m.fdc.present then m.(fdc := m.fdc.(status := 1))
    else
      var m1 := m.(fdc := m.fdc.(status := 2, lba := 0, dma := 0, count := 0));
      var m2 := Transfer(m1, cmd, m.fdc.lba, m.fdc.dma, m.fdc.count);
      m2.(fdc := m2.fdc.(status := 0))
  }

  function Output(m: Mach, port: byte, v: byte): (r: Mach)
    ensures SameRom(m, r)
  {
    if port == 0x10 then FdcCmd(m, v)
    else if port == 0x11 then m.(fdc := m.fdc.(lba := Hi(m.fdc.lba) as int * 256 + v as int))
    else if port == 0x12 then m.(fdc := m.fdc.(lba := v as int * 256 + Lo(m.fdc.lba) as int))
    else if port == 0x13 then m.(fdc := m.fdc.(dma := Hi(m.fdc.dma) as int * 256 + v as int))
    else if port == 0x14 then m.(fdc := m.fdc.(dma := v as int * 256 + Lo(m.fdc.dma) as int))
    else if port == 0x16 then m.(fdc := m.fdc.(count := if v == 0 then 1 else v))
    else if port == 0x80 then
      m.(acia := if v % 4 == 3 then m.acia.(ctrl := 0, status := 2) else m.acia.(ctrl := v))
    else if port == 0x81 then m.(acia := m.acia.(transmit := v), screen := m.screen + [v])
    else m
  }

  /** Reading the serial data register empties it. */
  function Input(m: Mach, port: byte): (r: (Mach, byte))
    ensures SameRom(m, r.0)
  {
    if port == 0x81 then
      (m.(acia := m.acia.(receive := 0, status := ResBit(ResBit(m.acia.status, 0), 5))), m.acia.receive)
    else if port == 0x80 then (m, m.acia.status)
    else if port == 0x15 then (m, if m.fdc.status == 1 then 1 else if m.fdc.status == 2 then 2 else 0)
    else (m, 0)
  }

  // ---- execution -------------------------------------------------------------------------------------------

  function Step16(v: u16, down: bool): u16 { Wrap(if down then v - 1 else v + 1) }

  /** The tail of a repeating instruction: back to its first byte, five cycles more. */
  function Again(c: Cpu, again: bool): Cpu {
    if again then c.(pc := Wrap(c.pc - 2), cycles := c.cycles + 21) else c.(cycles := c.cycles + 16)
  }

  /** LDI, LDD, LDIR, LDDR. */
  function BlockLoad(m: Mach, down: bool, repeat: bool): (r: Mach)
    ensures SameRom(m, r)
  {
    var c := m.cpu;
    var bc := Wrap(Bc(c) - 1);
    var c1 := SetBc(SetDe(SetHl(c, Step16(Hl(c), down)), Step16(De(c), down)), bc);
    SetMem8(m, De(c), MRead8(m.mem, Hl(c))).(cpu := Again(c1.(f := c.f.(pv := bc != 0)), repeat && bc != 0))
  }

  /** CPI, CPD, CPIR, CPDR. */
  function BlockCompare(m: Mach, down: bool, repeat: bool): (r: Mach)
    ensures SameRom(m, r)
  {
    var c := m.cpu;
    var f := Cp8(c.regs[RA], MRead8(m.mem, Hl(c)));
    var bc := Wrap(Bc(c) - 1);
    var c1 := SetBc(SetHl(c, Step16(Hl(c), down)), bc);
    m.(cpu := Again(c1.(f := f.(pv := bc != 0)), repeat && bc != 0 && !f.z))
  }

  /** The tail of the port transfers: HL moves and B counts down. */
  function BlockCount(m: Mach, down: bool, repeat: bool): (r: Mach)
    ensures SameRom(m, r)
  {
    var (b, f) := Dec8(m.cpu.f, m.cpu.regs[RB]);
    var c := SetHl(m.cpu, Step16(Hl(m.cpu), down));
    m.(cpu := Again(c.(regs := c.regs[RB := b], f := f), repeat && b != 0))
  }

  function BlockOp(m: Mach, y: int, z: int): (r: Mach)
    ensures SameRom(m, r)
  {
    var c := m.cpu;
    var down, repeat := y % 2 == 1, y / 2 % 2 == 1;
    if z == 0 then BlockLoad(m, down, repeat)
    else if z == 1 then BlockCompare(m, down, repeat)
    else if z == 2 then
      var (m1, v) := Input(m, c.regs[RC]);
      BlockCount(SetMem8(m1, Hl(c), v), down, repeat)
    else BlockCount(Output(m, c.regs[RC], MRead8(m.mem, Hl(c))), down, repeat)
  }

  function CbOp(m: Mach, op: int): (r: Mach)
    requires 0 <= op < 256
    ensures SameRom(m, r)
  {
    var x, y, z := op / 64, op / 8 % 8, op % 8;
    var v := GetR(m, z);
    if x == 0 then var (r, f) := Shift(m.cpu.f, y, v); SetR(m.(cpu := m.cpu.(f := f)), z, r)
    else if x == 1 then m.(cpu := m.cpu.(f := BitTest(m.cpu.f, v, y)))
    else SetR(m, z, if x == 2 then ResBit(v, y) else PutBit(v, y))
  }

  function Exchange(c: Cpu): Cpu {
    var r, s := c.regs, c.shadow;
    c.(regs := s[..6] + r[6..], shadow := r[..6] + s[6..])
  }

  function Refresh(c: Cpu): Cpu {
    c.(f := c.f.(s := Neg8(c.regs[RA]), z := c.regs[RA] == 0, n := false, h := false, pv := c.iff2))
  }

  /** RRD and RLD rotate nibbles between A and the byte at HL. */
  function Nibbles(m: Mach, left: bool): (r: Mach)
    ensures SameRom(m, r)
  {
    var t, a := MRead8(m.mem, Hl(m.cpu)), m.cpu.regs[RA];
    var r: byte := if left then a / 16 * 16 + t / 16 else a / 16 * 16 + t % 16;
    var v: byte := if left then t % 16 * 16 + a % 16 else t / 16 + a % 16 * 16;
    var f := m.cpu.f.(s := Neg8(r), z := r == 0, pv := Even(r, 8), n := false, h := false);
    SetMem8(m, Hl(m.cpu), v).(cpu := SetA(m.cpu, r).(f := Yx(f, r)))
  }

  function GetIndex(c: Cpu, reg: IndexReg): u16 { if reg == IX then c.ix else c.iy }

  function SetIndex(c: Cpu, reg: IndexReg, v: u16): Cpu { if reg == IX then c.(ix := v) else c.(iy := v) }

  /** Registers 4 and 5 are the halves of the index register here. */
  function GetXR(c: Cpu, reg: IndexReg, r: int): byte
    requires 0 <= r < 8
  {
    if r == 4 then Hi(GetIndex(c, reg)) else if r == 5 then Lo(GetIndex(c, reg)) else c.regs[r]
  }

  function SetXR(c: Cpu, reg: IndexReg, r: int, v: byte): Cpu
    requires 0 <= r < 8
  {
    var i := GetIndex(c, reg);
    if r == 4 then SetIndex(c, reg, Lo(i) as int + 256 * (v as int))
    else if r == 5 then SetIndex(c, reg, v as int + 256 * (Hi(i) as int))
    else c.(regs := c.regs[r := v])
  }

  function ExecIndex(m: Mach, reg: IndexReg, x: IndexOp): (r: Mach)
    ensures SameRom(m, r)
  {
    var c := m.cpu;
    var i := GetIndex(c, reg);
    match x
    case XNone => m
    case XAdd(p) =>
      var (v, f) := Add16(c.f, i, if p == 2 then i else Get1(c, p)); m.(cpu := SetIndex(c.(f := f), reg, v))
    case XLd(nn) => m.(cpu := SetIndex(c, reg, nn))
    case XSt(nn) => SetMem16(m, nn, i)
    case XLdMem(nn) => m.(cpu := SetIndex(c, reg, MRead16(m.mem, nn)))
    case XInc => m.(cpu := SetIndex(c, reg, Wrap(i + 1)))
    case XDec => m.(cpu := SetIndex(c, reg, Wrap(i - 1)))
    case XIncR(r) =>
      if !(0 <= r < 8) then m
      else var (v, f) := Inc8(c.f, GetXR(c, reg, r)); m.(cpu := SetXR(c.(f := f), reg, r, v))
    case XDecR(r) =>
      if !(0 <= r < 8) then m
      else var (v, f) := Dec8(c.f, GetXR(c, reg, r)); m.(cpu := SetXR(c.(f := f), reg, r, v))
    case XIncM(d) =>
      var a := Wrap(i + Disp(d)); var (v, f) := Inc8(c.f, MRead8(m.mem, a)); SetMem8(m.(cpu := c.(f := f)), a, v)
    case XDecM(d) =>
      var a := Wrap(i + Disp(d)); var (v, f) := Dec8(c.f, MRead8(m.mem, a)); SetMem8(m.(cpu := c.(f := f)), a, v)
    case XLdImm(r, n) => if !(0 <= r < 8) then m else m.(cpu := SetXR(c, reg, r, n))
    case XLdMImm(d, n) => SetMem8(m, Wrap(i + Disp(d)), n)
    case XStR(d, r) => SetMem8(m, Wrap(i + Disp(d)), GetR(m, r))
    case XLdR(r, d) => SetR(m, r, MRead8(m.mem, Wrap(i + Disp(d))))
    case XLdRR(r, s) => if !(0 <= r < 8 && 0 <= s < 8) then m else m.(cpu := SetXR(c, reg, r, GetXR(c, reg, s)))
    case XAlu(op, s) => if !(0 <= s < 8) then m else m.(cpu := AluOp(c, op, GetXR(c, reg, s)))
    case XAluM(op, d) => m.(cpu := AluOp(c, op, MRead8(m.mem, Wrap(i + Disp(d)))))
    case XPop => var (m1, v) := Pop16(m); m1.(cpu := SetIndex(m1.cpu, reg, v))
    case XPush => Push16(m, i)
    case XJp => m.(cpu := c.(pc := i))
    case XLdSp => m.(cpu := c.(sp := i))
    case XExSp => SetMem16(m.(cpu := SetIndex(c.(wz := i), reg, MRead16(m.mem, c.sp))), c.sp, i)
    case XCb(d, op) => IndexCb(m, Wrap(i + Disp(d)), op)
  }

  /** The indexed bit group sets flags but never writes its result back. */
  function IndexCb(m: Mach, a: u16, op: int): (r: Mach)
    ensures SameRom(m, r)
  {
    var v := MRead8(m.mem, a);
    if 0 <= op < 64 then m.(cpu := m.cpu.(f := Shift(m.cpu.f, op / 8, v).1))
    else if 64 <= op < 128 then m.(cpu := m.cpu.(f := BitTest(m.cpu.f, v, op / 8 % 8)))
    else m
  }

  function Jump(m: Mach, taken: bool, d: byte): (r: Mach)
    ensures SameRom(m, r)
  {
    if taken then m.(cpu := m.cpu.(pc := Wrap(m.cpu.pc + Disp(d)))) else m
  }

  function Goto(m: Mach, taken: bool, nn: u16): (r: Mach)
    ensures SameRom(m, r)
  {
    if taken then m.(cpu := m.cpu.(pc := nn)) else m
  }

  function CallTo(m: Mach, taken: bool, nn: u16): (r: Mach)
    ensures SameRom(m, r)
  {
    if taken then Goto(Push16(m, m.cpu.pc), true, nn) else m
  }

  function Return(m: Mach, taken: bool): (r: Mach)
    ensures SameRom(m, r)
  {
    if taken then var (m1, v) := Pop16(m); Goto(m1, true, v) else m
  }

  function ImMode(y: int): int { if y % 4 == 2 then 1 else if y % 4 == 3 then 2 else 0 }

  function ExecLoad(m: Mach, i: Instr): (r: Mach)
    ensures SameRom(m, r)
  {
    var c := m.cpu;
    match i
    case LdPair(p, nn) => m.(cpu := Set1(c, p, nn))
    case LdAInd(p) => m.(cpu := SetA(c, MRead8(m.mem, Get1(c, p))))
    case StAInd(p) => SetMem8(m, Get1(c, p), c.regs[RA])
    case LdHlMem(nn) => m.(cpu := SetHl(c, MRead16(m.mem, nn)))
    case StHlMem(nn) => SetMem16(m, nn, Hl(c))
    case LdAMem(nn) => m.(cpu := SetA(c, MRead8(m.mem, nn)))
    case StAMem(nn) => SetMem8(m, nn, c.regs[RA])
    case LdImm(r, n) => SetR(m, r, n)
    case Ld(r, s) => SetR(m, r, GetR(m, s))
    case LdSpHl => m.(cpu := c.(sp := Hl(c)))
    case Pop(p) => var (m1, v) := Pop16(m); m1.(cpu := Set2(m1.cpu, p, v))
    case Push(p) => Push16(m, Get2(c, p))
    case StPairMem(p, nn) => SetMem16(m, nn, Get1(c, p))
    case LdPairMem(p, nn) => m.(cpu := Set1(c, p, MRead16(m.mem, nn)))
    case LdIA => m.(cpu := c.(i := c.regs[RA]))
    case LdRA => m.(cpu := c.(r := c.regs[RA]))
    case LdAI => m.(cpu := Refresh(SetA(c, c.i)))
    case LdAR => m.(cpu := Refresh(SetA(c, c.r)))
    case ExAf => m.(cpu := SetA(c, c.shadow[RA]).(f := c.sf, sf := c.f, shadow := c.shadow[RA := c.regs[RA]]))
    case Exx => m.(cpu := Exchange(c))
    case ExDeHl => m.(cpu := SetDe(SetHl(c, De(c)), Hl(c)))
    case ExSpHl => SetMem16(m.(cpu := SetHl(c.(wz := Hl(c)), MRead16(m.mem, c.sp))), c.sp, Hl(c))
    case _ => m
  }

  function ExecArith(m: Mach, i: Instr): (r: Mach)
    ensures SameRom(m, r)
  {
    var c := m.cpu;
    match i
    case AddHl(p) => var (v, f) := Add16(c.f, Hl(c), Get1(c, p)); m.(cpu := SetHl(c.(f := f), v))
    case AdcHl(p) =>
      var (v, f) := Wide(Hl(c), Get1(c, p), Hl(c) + Get1(c, p) + Carry(c.f), false); m.(cpu := SetHl(c.(f := f), v))
    case SbcHl(p) =>
      var (v, f) := Wide(Hl(c), Get1(c, p), Hl(c) - Get1(c, p) - Carry(c.f), true); m.(cpu := SetHl(c.(f := f), v))
    case IncPair(p) => m.(cpu := Set1(c, p, Wrap(Get1(c, p) + 1)))
    case DecPair(p) => m.(cpu := Set1(c, p, Wrap(Get1(c, p) - 1)))
    case Inc(r) => var (v, f) := Inc8(c.f, GetR(m, r)); SetR(m.(cpu := c.(f := f)), r, v)
    case Dec(r) => var (v, f) := Dec8(c.f, GetR(m, r)); SetR(m.(cpu := c.(f := f)), r, v)
    case AccOp(y) => m.(cpu := Accumulator(c, y))
    case Alu(op, s) => m.(cpu := AluOp(c, op, GetR(m, s)))
    case AluImm(op, n) => m.(cpu := AluOp(c, op, n))
    case Neg => var (v, f) := Sub8(0, c.regs[RA]); m.(cpu := SetA(c, v).(f := f))
    case Rrd => Nibbles(m, false)
    case Rld => Nibbles(m, true)
    case _ => m
  }

  function ExecControl(m: Mach, i: Instr): (r: Mach)
    ensures SameRom(m, r)
  {
    var c := m.cpu;
    match i
    case Djnz(d) =>
      var b: byte := (c.regs[RB] as int - 1) % 256;
      Jump(m.(cpu := c.(regs := c.regs[RB := b])), b != 0, d)
    case Jr(d) => Jump(m, true, d)
    case JrIf(k, d) => Jump(m, Cond(c.f, k), d)
    case Halt => m.(cpu := c.(halt := true))
    case RetIf(k) => Return(m, Cond(c.f, k))
    case Ret => Return(m, true)
    case RetN(y) => var m1 := Return(m, true); if y == 1 then m1 else m1.(cpu := m1.cpu.(iff1 := m1.cpu.iff2))
    case JpHl => Goto(m, true, Hl(c))
    case JpIf(k, nn) => Goto(m, Cond(c.f, k), nn)
    case Jp(nn) => Goto(m, true, nn)
    case CallIf(k, nn) => CallTo(m, Cond(c.f, k), nn)
    case Call(nn) => CallTo(m, true, nn)
    case Rst(y) => CallTo(m, true, Wrap(y * 8))
    case OutN(n) => Output(m, n, c.regs[RA])
    case InN(n) => var (m1, v) := Input(m, n); m1.(cpu := SetA(m1.cpu, v))
    case InC(r) => if r == 6 then m else var (m1, v) := Input(m, c.regs[RC]); SetR(m1, r, v)
    case OutC(r) => Output(m, c.regs[RC], if r == 6 then 0 else GetR(m, r))
    case Di => m.(cpu := c.(iff1 := false, iff2 := false))
    case Ei => m.(cpu := c.(iff1 := true, iff2 := true))
    case Im(y) => m.(cpu := c.(im := ImMode(y)))
    case _ => m
  }

  predicate IsLoad(i: Instr) {
    i.LdPair? || i.LdAInd? || i.StAInd? || i.LdHlMem? || i.StHlMem? || i.LdAMem? || i.StAMem? || i.LdImm? || i.Ld?
    || i.LdSpHl? || i.Pop? || i.Push? || i.StPairMem? || i.LdPairMem? || i.LdIA? || i.LdRA? || i.LdAI? || i.LdAR?
    || i.ExAf? || i.Exx? || i.ExDeHl? || i.ExSpHl?
  }

  predicate IsArith(i: Instr) {
    i.AddHl? || i.AdcHl? || i.SbcHl? || i.IncPair? || i.DecPair? || i.Inc? || i.Dec? || i.AccOp? || i.Alu?
    || i.AluImm? || i.Neg? || i.Rrd? || i.Rld?
  }

  function Exec(m: Mach, i: Instr): (r: Mach)
    ensures SameRom(m, r)
  {
    if i.Block? then BlockOp(m, i.y, i.z)
    else if i.Cb? then if 0 <= i.op < 256 then CbOp(m, i.op) else m
    else if i.Index? then ExecIndex(m, i.reg, i.x)
    else if IsLoad(i) then ExecLoad(m, i) else if IsArith(i) then ExecArith(m, i) else ExecControl(m, i)
  }

  /** The machine when an instruction of `len` bytes has been fetched. */
  function Fetching(m: Mach, len: nat): (r: Mach)
    ensures SameRom(m, r)
  {
    m.(cpu := m.cpu.(pc := Wrap(m.cpu.pc + len), r := (m.cpu.r + 1) as int % 128))
  }

  /** One instruction: fetch, advance, refresh, execute. */
  function Step(m: Mach): (r: Mach)
    ensures SameRom(m, r)
  {
    var d := Decode(m.mem, m.cpu.pc);
    Exec(Fetching(m, d.len), d.i)
  }

  function Interrupt(m: Mach): (r: Mach)
    ensures SameRom(m, r)
  {
    var c := m.cpu;
    if c.iff1 && c.im == 1 then Goto(Push16(m.(cpu := c.(iff1 := false, iff2 := false)), c.pc), true, 0x38) else m
  }

  /** The input thread puts a character in the serial receiver. */
  function Key(m: Mach, ch: byte): (r: Mach)
    ensures SameRom(m, r)
  {
    var st := if TestBit(m.acia.status, 0) then PutBit(m.acia.status, 5) else m.acia.status;
    m.(acia := m.acia.(receive := ch, status := PutBit(st, 0)))
  }

  datatype Event = Tick | Irq | KeyIn(ch: byte)

  function Happen(m: Mach, e: Event): (r: Mach)
    ensures SameRom(m, r)
  {
    match e
    case Tick => if m.cpu.halt then m else Step(m)
    case Irq => if m.cpu.halt then m else Interrupt(m)
    case KeyIn(ch) => Key(m, ch)
  }

  function Run(m: Mach, es: seq<Event>): Mach
    decreases |es|
  {
    if es == [] then m else Run(Happen(m, es[0]), es[1..])
  }

  /** Main result: no run, whatever its code, interrupts and transfers, changes a byte of ROM. */
  lemma {:induction false} RunKeepsRom(m: Mach, es: seq<Event>)
    ensures SameRom(m, Run(m, es))
    decreases |es|
  {
    if es != [] { RunKeepsRom(Happen(m, es[0]), es[1..]); }
  }
}
