/** The emulated machine's memory with its protected ROM, and the instruction decoder. */
module Z80 {
  import opened Machine

  // ---- memory -----------------------------------------------------------------------------------

  const MEM_SIZE := 0xFFFF

  type Mem = m: seq<byte> | |m| == 0xFFFF witness seq(0xFFFF, _ => 0)

  function Wrap(a: int): u16 { a % 0x1_0000 }

  function MRead8(mem: Mem, a: u16): byte { if a >= MEM_SIZE then 0 else mem[a] }

  function MRead16(mem: Mem, a: u16): u16 {
    if a + 1 >= MEM_SIZE then 0 else mem[a] as int + 256 * (mem[a + 1] as int)
  }

  function MWrite8(mem: Mem, rom: u16, a: u16, v: byte): Mem {
    if a >= MEM_SIZE || a < rom then mem else mem[a := v]
  }

  function MWrite16(mem: Mem, rom: u16, a: u16, v: u16): Mem {
    if a + 1 >= MEM_SIZE || a < rom then mem else mem[a := Lo(v)][a + 1 := Hi(v)]
  }

  // ---- instructions -------------------------------------------------------------------------------

  datatype IndexReg = IX | IY

  datatype IndexOp =
    | XNone | XAdd(p: int) | XLd(nn: u16) | XSt(nn: u16) | XLdMem(nn: u16) | XInc | XDec
    | XIncR(r: int) | XDecR(r: int) | XIncM(d: byte) | XDecM(d: byte)
    | XLdImm(r: int, n: byte) | XLdMImm(d: byte, n: byte)
    | XStR(d: byte, r: int) | XLdR(r: int, d: byte) | XLdRR(r: int, s: int)
    | XAlu(op: int, s: int) | XAluM(op: int, d: byte)
    | XPop | XPush | XJp | XLdSp | XExSp | XCb(d: byte, op: int)

  /** Registers are numbered as encoded (6 is the byte at HL), pairs 0..3, conditions 0..7. */
  datatype Instr =
    | Nop | ExAf | Djnz(d: byte) | Jr(d: byte) | JrIf(c: int, d: byte)
    | LdPair(p: int, nn: u16) | AddHl(p: int)
    | LdAInd(p: int) | StAInd(p: int) | LdHlMem(nn: u16) | StHlMem(nn: u16) | LdAMem(nn: u16) | StAMem(nn: u16)
    | IncPair(p: int) | DecPair(p: int) | Inc(r: int) | Dec(r: int) | LdImm(r: int, n: byte) | AccOp(y: int)
    | Halt | Ld(r: int, s: int) | Alu(op: int, s: int) | AluImm(op: int, n: byte)
    | RetIf(c: int) | Ret | Exx | JpHl | LdSpHl | Pop(p: int) | Push(p: int)
    | JpIf(c: int, nn: u16) | Jp(nn: u16) | CallIf(c: int, nn: u16) | Call(nn: u16) | Rst(y: int)
    | OutN(n: byte) | InN(n: byte) | ExSpHl | ExDeHl | Di | Ei
    | Cb(op: int)
    | InC(r: int) | OutC(r: int) | SbcHl(p: int) | AdcHl(p: int)
    | StPairMem(p: int, nn: u16) | LdPairMem(p: int, nn: u16) | Neg | RetN(y: int) | Im(y: int)
    | LdIA | LdRA | LdAI | LdAR | Rrd | Rld | Block(y: int, z: int)
    | Index(reg: IndexReg, x: IndexOp)

  /** A displacement byte read as signed. */
  function Disp(d: byte): int { if d < 128 then d as int else d as int - 256 }

  // ---- decoding ---------------------------------------------------------------------------------------

  /** An instruction and how many bytes were fetched for it. */
  datatype Fetched = Fetched(i: Instr, len: nat)

  function B(mem: Mem, a: int): byte { MRead8(mem, Wrap(a)) }

  function W(mem: Mem, a: int): u16 { MRead16(mem, Wrap(a)) }

  function Group0(op: byte, mem: Mem, a: int): Fetched {
    var y, z := op / 8 % 8, op % 8;
    var p, q := y / 2, y % 2;
    if z == 0 then
      if y >= 4 then Fetched(JrIf(y - 4, B(mem, a)), 2)
      else if y == 0 then Fetched(Nop, 1)
      else if y == 1 then Fetched(ExAf, 1)
      else if y == 2 then Fetched(Djnz(B(mem, a)), 2)
      else Fetched(Jr(B(mem, a)), 2)
    else if z == 1 then
      if q == 1 then Fetched(AddHl(p), 1) else Fetched(LdPair(p, W(mem, a)), 3)
    else if z == 2 then
      if p < 2 then Fetched(if q == 1 then LdAInd(p) else StAInd(p), 1)
      else if p == 2 then Fetched(if q == 1 then LdHlMem(W(mem, a)) else StHlMem(W(mem, a)), 3)
      else Fetched(if q == 1 then LdAMem(W(mem, a)) else StAMem(W(mem, a)), 3)
    else if z == 3 then Fetched(if q == 1 then DecPair(p) else IncPair(p), 1)
    else if z == 4 then Fetched(Inc(y), 1)
    else if z == 5 then Fetched(Dec(y), 1)
    else if z == 6 then Fetched(LdImm(y, B(mem, a)), 2)
    else Fetched(AccOp(y), 1)
  }

  function DecodeEd(op: byte, mem: Mem, a: int): Fetched {
    var x, y, z := op / 64, op / 8 % 8, op % 8;
    var p, q := y / 2, y % 2;
    if x == 1 then
      if z == 0 then Fetched(InC(y), 2)
      else if z == 1 then Fetched(OutC(y), 2)
      else if z == 2 then Fetched(if q == 1 then AdcHl(p) else SbcHl(p), 2)
      else if z == 3 then Fetched(if q == 1 then LdPairMem(p, W(mem, a)) else StPairMem(p, W(mem, a)), 4)
      else if z == 4 then Fetched(Neg, 2)
      else if z == 5 then Fetched(RetN(y), 2)
      else if z == 6 then Fetched(Im(y), 2)
      else if y == 0 then Fetched(LdIA, 2)
      else if y == 1 then Fetched(LdRA, 2)
      else if y == 2 then Fetched(LdAI, 2)
      else if y == 3 then Fetched(LdAR, 2)
      else if y == 4 then Fetched(Rrd, 2)
      else if y == 5 then Fetched(Rld, 2)
      else Fetched(Nop, 2)
    else if x == 2 && z <= 3 && y >= 4 then Fetched(Block(y, z), 2)
    else Fetched(Nop, 2)
  }

  function DecodeIndex0(op: byte, mem: Mem, a: int): (IndexOp, nat) {
    var y, z := op / 8 % 8, op % 8;
    var p, q := y / 2, y % 2;
    if z == 1 then
      if q == 1 then (XAdd(p), 2) else if p == 2 then (XLd(W(mem, a)), 4) else (XNone, 2)
    else if z == 2 then
      if p != 2 then (XNone, 2) else (if q == 1 then XLdMem(W(mem, a)) else XSt(W(mem, a)), 4)
    else if z == 3 then
      if p != 2 then (XNone, 2) else (if q == 1 then XDec else XInc, 2)
    else if z == 4 then
      if y == 6 then (XIncM(B(mem, a)), 3) else (XIncR(y), 2)
    else if z == 5 then
      if y == 6 then (XDecM(B(mem, a)), 3) else (XDecR(y), 2)
    else if z == 6 then
      if y == 6 then (XLdMImm(B(mem, a), B(mem, a + 1)), 4) else (XLdImm(y, B(mem, a)), 3)
    else (XNone, 2)
  }

  function DecodeIndex(op: byte, mem: Mem, a: int): (IndexOp, nat) {
    var x, y, z := op / 64, op / 8 % 8, op % 8;
    var p, q := y / 2, y % 2;
    if x == 0 then DecodeIndex0(op, mem, a)
    else if x == 1 then
      if y == 6 && z == 6 then (XNone, 2)
      else if y == 6 then (XStR(B(mem, a), z), 3)
      else if z == 6 then (XLdR(y, B(mem, a)), 3)
      else (XLdRR(y, z), 2)
    else if x == 2 then
      if z == 6 then (XAluM(y, B(mem, a)), 3) else (XAlu(y, z), 2)
    else if z == 1 then
      if q == 0 && p == 2 then (XPop, 2)
      else if q == 1 && p == 2 then (XJp, 2)
      else if q == 1 && p == 3 then (XLdSp, 2)
      else (XNone, 2)
    else if z == 3 then
      if y == 1 then (XCb(B(mem, a), B(mem, a + 1)), 4) else if y == 4 then (XExSp, 2) else (XNone, 2)
    else if z == 5 && q == 0 && p == 2 then (XPush, 2)
    else (XNone, 2)
  }

  function Indexed(reg: IndexReg, d: (IndexOp, nat)): Fetched { Fetched(Index(reg, d.0), d.1) }

  function Group3(op: byte, mem: Mem, a: int): Fetched {
    var y, z := op / 8 % 8, op % 8;
    var p, q := y / 2, y % 2;
    if z == 0 then Fetched(RetIf(y), 1)
    else if z == 1 then
      if q == 0 then Fetched(Pop(p), 1)
      else Fetched(if p == 0 then Ret else if p == 1 then Exx else if p == 2 then JpHl else LdSpHl, 1)
    else if z == 2 then Fetched(JpIf(y, W(mem, a)), 3)
    else if z == 3 then
      if y == 0 then Fetched(Jp(W(mem, a)), 3)
      else if y == 1 then Fetched(Cb(B(mem, a)), 2)
      else if y == 2 then Fetched(OutN(B(mem, a)), 2)
      else if y == 3 then Fetched(InN(B(mem, a)), 2)
      else Fetched(if y == 4 then ExSpHl else if y == 5 then ExDeHl else if y == 6 then Di else Ei, 1)
    else if z == 4 then Fetched(CallIf(y, W(mem, a)), 3)
    else if z == 5 then
      if q == 0 then Fetched(Push(p), 1)
      else if p == 0 then Fetched(Call(W(mem, a)), 3)
      else if p == 1 then Indexed(IX, DecodeIndex(B(mem, a), mem, a + 1))
      else if p == 2 then DecodeEd(B(mem, a), mem, a + 1)
      else Indexed(IY, DecodeIndex(B(mem, a), mem, a + 1))
    else if z == 6 then Fetched(AluImm(y, B(mem, a)), 2)
    else Fetched(Rst(y), 1)
  }

  /** The instruction at `pc`. */
  function Decode(mem: Mem, pc: u16): Fetched {
    var op := B(mem, pc);
    var x, y, z := op / 64, op / 8 % 8, op % 8;
    if x == 0 then Group0(op, mem, pc + 1)
    else if x == 1 then Fetched(if y == 6 && z == 6 then Halt else Ld(y, z), 1)
    else if x == 2 then Fetched(Alu(y, z), 1)
    else Group3(op, mem, pc + 1)
  }
}
