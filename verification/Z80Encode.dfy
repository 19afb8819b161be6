/** The Z80's opcode table, as an encoder for every instruction, and the emulator's decoder as its inverse. */
module Z80Encode {
  import opened Machine
  import opened Z80
  import opened AsmDecode

  function Op(n: int): byte { if 0 <= n < 0x100 then n else 0 }

  function Word(nn: u16): seq<byte> { [Lo(nn), Hi(nn)] }

  predicate Octal(n: int) { 0 <= n < 8 }

  predicate Quarter(n: int) { 0 <= n < 4 }

  /** A register that is not the byte at HL. */
  predicate Plain(r: int) { 0 <= r < 8 && r != 6 }

  // ---- the table -----------------------------------------------------------------------------------------------

  /** The instructions of the first quarter of the table. */
  predicate InLow(i: Instr) {
    match i
    case Nop | ExAf | Djnz(_) | Jr(_) | LdHlMem(_) | StHlMem(_) | LdAMem(_) | StAMem(_) => true
    case JrIf(c, _) => Quarter(c)
    case LdPair(p, _) => Quarter(p)
    case AddHl(p) => Quarter(p)
    case IncPair(p) => Quarter(p)
    case DecPair(p) => Quarter(p)
    case LdAInd(p) => 0 <= p < 2
    case StAInd(p) => 0 <= p < 2
    case Inc(r) => Octal(r)
    case Dec(r) => Octal(r)
    case LdImm(r, _) => Octal(r)
    case AccOp(y) => Octal(y)
    case _ => false
  }

  function Low(i: Instr): seq<byte> {
    match i
    case Nop => [0x00]
    case ExAf => [0x08]
    case Djnz(d) => [0x10, d]
    case Jr(d) => [0x18, d]
    case JrIf(c, d) => [Op(0x20 + 8 * c), d]
    case LdPair(p, nn) => [Op(0x01 + 16 * p)] + Word(nn)
    case AddHl(p) => [Op(0x09 + 16 * p)]
    case LdAInd(p) => [Op(0x0A + 16 * p)]
    case StAInd(p) => [Op(0x02 + 16 * p)]
    case LdHlMem(nn) => [0x2A] + Word(nn)
    case StHlMem(nn) => [0x22] + Word(nn)
    case LdAMem(nn) => [0x3A] + Word(nn)
    case StAMem(nn) => [0x32] + Word(nn)
    case IncPair(p) => [Op(0x03 + 16 * p)]
    case DecPair(p) => [Op(0x0B + 16 * p)]
    case Inc(r) => [Op(0x04 + 8 * r)]
    case Dec(r) => [Op(0x05 + 8 * r)]
    case LdImm(r, n) => [Op(0x06 + 8 * r), n]
    case AccOp(y) => [Op(0x07 + 8 * y)]
    case _ => []
  }

  /** The instructions of the last quarter that have no prefix. */
  predicate InHigh(i: Instr) {
    match i
    case Ret | Exx | JpHl | LdSpHl | Jp(_) | Call(_) | OutN(_) | InN(_) | ExSpHl | ExDeHl | Di | Ei => true
    case AluImm(op, _) => Octal(op)
    case RetIf(c) => Octal(c)
    case JpIf(c, _) => Octal(c)
    case CallIf(c, _) => Octal(c)
    case Rst(y) => Octal(y)
    case Pop(p) => Quarter(p)
    case Push(p) => Quarter(p)
    case Cb(op) => 0 <= op < 256
    case _ => false
  }

  function High(i: Instr): seq<byte> {
    match i
    case AluImm(op, n) => [Op(0xC6 + 8 * op), n]
    case RetIf(c) => [Op(0xC0 + 8 * c)]
    case Ret => [0xC9]
    case Exx => [0xD9]
    case JpHl => [0xE9]
    case LdSpHl => [0xF9]
    case Pop(p) => [Op(0xC1 + 16 * p)]
    case Push(p) => [Op(0xC5 + 16 * p)]
    case JpIf(c, nn) => [Op(0xC2 + 8 * c)] + Word(nn)
    case Jp(nn) => [0xC3] + Word(nn)
    case CallIf(c, nn) => [Op(0xC4 + 8 * c)] + Word(nn)
    case Call(nn) => [0xCD] + Word(nn)
    case Rst(y) => [Op(0xC7 + 8 * y)]
    case OutN(n) => [0xD3, n]
    case InN(n) => [0xDB, n]
    case ExSpHl => [0xE3]
    case ExDeHl => [0xEB]
    case Di => [0xF3]
    case Ei => [0xFB]
    case Cb(op) => [0xCB, Op(op)]
    case _ => []
  }

  /** The instructions behind the prefix ED. */
  predicate InEd(i: Instr) {
    match i
    case Neg | LdIA | LdRA | LdAI | LdAR | Rrd | Rld => true
    case InC(r) => Octal(r)
    case OutC(r) => Octal(r)
    case SbcHl(p) => Quarter(p)
    case AdcHl(p) => Quarter(p)
    case StPairMem(p, _) => Quarter(p)
    case LdPairMem(p, _) => Quarter(p)
    case RetN(y) => Octal(y)
    case Im(y) => Octal(y)
    case Block(y, z) => 4 <= y < 8 && 0 <= z < 4
    case _ => false
  }

  function Ed(i: Instr): seq<byte> {
    match i
    case InC(r) => [Op(0x40 + 8 * r)]
    case OutC(r) => [Op(0x41 + 8 * r)]
    case SbcHl(p) => [Op(0x42 + 16 * p)]
    case AdcHl(p) => [Op(0x4A + 16 * p)]
    case StPairMem(p, nn) => [Op(0x43 + 16 * p)] + Word(nn)
    case LdPairMem(p, nn) => [Op(0x4B + 16 * p)] + Word(nn)
    case Neg => [0x44]
    case RetN(y) => [Op(0x45 + 8 * y)]
    case Im(y) => [Op(0x46 + 8 * y)]
    case LdIA => [0x47]
    case LdRA => [0x4F]
    case LdAI => [0x57]
    case LdAR => [0x5F]
    case Rrd => [0x67]
    case Rld => [0x6F]
    case Block(y, z) => [Op(0x80 + 8 * y + z)]
    case _ => []
  }

  /** The instructions behind the prefixes DD and FD. */
  predicate InIndex(x: IndexOp) {
    match x
    case XNone => false
    case XAdd(p) => Quarter(p)
    case XIncR(r) => Plain(r)
    case XDecR(r) => Plain(r)
    case XLdImm(r, _) => Plain(r)
    case XStR(_, r) => Plain(r)
    case XLdR(r, _) => Plain(r)
    case XLdRR(r, s) => Plain(r) && Plain(s)
    case XAlu(op, s) => Octal(op) && Plain(s)
    case XAluM(op, _) => Octal(op)
    case XCb(_, op) => 0 <= op < 256
    case _ => true
  }

  function Idx(x: IndexOp): seq<byte> {
    match x
    case XAdd(p) => [Op(0x09 + 16 * p)]
    case XLd(nn) => [0x21] + Word(nn)
    case XSt(nn) => [0x22] + Word(nn)
    case XLdMem(nn) => [0x2A] + Word(nn)
    case XInc => [0x23]
    case XDec => [0x2B]
    case XIncR(r) => [Op(0x04 + 8 * r)]
    case XDecR(r) => [Op(0x05 + 8 * r)]
    case XIncM(d) => [0x34, d]
    case XDecM(d) => [0x35, d]
    case XLdImm(r, n) => [Op(0x06 + 8 * r), n]
    case XLdMImm(d, n) => [0x36, d, n]
    case XStR(d, r) => [Op(0x70 + r), d]
    case XLdR(r, d) => [Op(0x46 + 8 * r), d]
    case XLdRR(r, s) => [Op(0x40 + 8 * r + s)]
    case XAlu(op, s) => [Op(0x80 + 8 * op + s)]
    case XAluM(op, d) => [Op(0x86 + 8 * op), d]
    case XPop => [0xE1]
    case XPush => [0xE5]
    case XJp => [0xE9]
    case XLdSp => [0xF9]
    case XExSp => [0xE3]
    case XCb(d, op) => [0xCB, d, Op(op)]
    case _ => []
  }

  function Prefixed(i: Instr): seq<byte> { [0xED] + Ed(i) }

  predicate Encodable(i: Instr) {
    match i
    case Halt => true
    case Ld(r, s) => Octal(r) && Octal(s) && !(r == 6 && s == 6)
    case Alu(op, s) => Octal(op) && Octal(s)
    case Index(_, x) => InIndex(x)
    case _ => InLow(i) || InHigh(i) || InEd(i)
  }

  function Encode(i: Instr): seq<byte> {
    match i
    case Halt => [0x76]
    case Ld(r, s) => [Op(0x40 + 8 * r + s)]
    case Alu(op, s) => [Op(0x80 + 8 * op + s)]
    case Index(reg, x) => [if reg == IX then 0xDD else 0xFD] + Idx(x)
    case _ => if InEd(i) then Prefixed(i) else Low(i) + High(i)
  }

  // ---- the decoder inverts it --------------------------------------------------------------------------------------

  lemma WordRead(mem: Mem, a: u16, b: seq<byte>, nn: u16)
    requires Holds(mem, a, b) && |b| == 3 && b[1..] == Word(nn)
    ensures W(mem, a + 1) == nn
  {
    Fetches(mem, a, b);
    assert b[1] == b[1..][0] && b[2] == b[1..][1];
  }

  /** Octal digits of the first byte of a low instruction. */
  function LowDigits(i: Instr): (int, int) {
    match i
    case Nop => (0, 0)
    case ExAf => (1, 0)
    case Djnz(_) => (2, 0)
    case Jr(_) => (3, 0)
    case JrIf(c, _) => (4 + c, 0)
    case LdPair(p, _) => (2 * p, 1)
    case AddHl(p) => (2 * p + 1, 1)
    case StAInd(p) => (2 * p, 2)
    case LdAInd(p) => (2 * p + 1, 2)
    case StHlMem(_) => (4, 2)
    case LdHlMem(_) => (5, 2)
    case StAMem(_) => (6, 2)
    case LdAMem(_) => (7, 2)
    case IncPair(p) => (2 * p, 3)
    case DecPair(p) => (2 * p + 1, 3)
    case Inc(r) => (r, 4)
    case Dec(r) => (r, 5)
    case LdImm(r, _) => (r, 6)
    case AccOp(y) => (y, 7)
    case _ => (0, 0)
  }

  predicate HasWord(i: Instr) {
    i.LdPair? || i.LdHlMem? || i.StHlMem? || i.LdAMem? || i.StAMem? || i.Jp? || i.JpIf? || i.Call? || i.CallIf?
  }

  predicate Counts(i: Instr) { i.Inc? || i.Dec? || i.IncPair? || i.DecPair? || i.LdImm? || i.AccOp? }

  lemma LowCounts(i: Instr)
    requires InLow(i) && Counts(i)
    ensures var (y, z) := LowDigits(i); Low(i) != [] && Low(i)[0] == 8 * y + z && Octal(y) && Octal(z)
  {
  }

  lemma LowLoads(i: Instr)
    requires InLow(i) && !Counts(i)
    ensures var (y, z) := LowDigits(i); Low(i) != [] && Low(i)[0] == 8 * y + z && Octal(y) && Octal(z)
  {
  }

  lemma LowFirst(i: Instr)
    requires InLow(i)
    ensures var (y, z) := LowDigits(i); Low(i) != [] && Low(i)[0] == 8 * y + z && Octal(y) && Octal(z)
  {
    if Counts(i) { LowCounts(i); } else { LowLoads(i); }
  }

  lemma LowWord(i: Instr)
    requires InLow(i) && HasWord(i)
    ensures |Low(i)| == 3 && Low(i)[1..] == Word(i.nn)
  {
  }

  lemma LowGroup(mem: Mem, a: u16, i: Instr, op: byte)
    requires InLow(i) && Low(i) != [] && op == Low(i)[0] && op / 8 % 8 == LowDigits(i).0 && op % 8 == LowDigits(i).1
    requires (HasWord(i) ==> W(mem, a + 1) == i.nn) && (|Low(i)| == 2 ==> B(mem, a + 1) == Low(i)[1])
    ensures Group0(op, mem, a + 1) == Fetched(i, |Low(i)|)
  {
  }

  lemma LowDecodes(mem: Mem, a: u16, i: Instr)
    requires InLow(i) && Holds(mem, a, Low(i))
    ensures Decode(mem, a) == Fetched(i, |Low(i)|)
  {
    var (y, z) := LowDigits(i);
    LowFirst(i);
    Fetches(mem, a, Low(i));
    if HasWord(i) {
      LowWord(i);
      WordRead(mem, a, Low(i), i.nn);
    }
    DecodesLow(mem, a, y, z);
    LowGroup(mem, a, i, Low(i)[0]);
  }

  function HighDigits(i: Instr): (int, int) {
    match i
    case RetIf(c) => (c, 0)
    case Pop(p) => (2 * p, 1)
    case Ret => (1, 1)
    case Exx => (3, 1)
    case JpHl => (5, 1)
    case LdSpHl => (7, 1)
    case JpIf(c, _) => (c, 2)
    case Jp(_) => (0, 3)
    case Cb(_) => (1, 3)
    case OutN(_) => (2, 3)
    case InN(_) => (3, 3)
    case ExSpHl => (4, 3)
    case ExDeHl => (5, 3)
    case Di => (6, 3)
    case Ei => (7, 3)
    case CallIf(c, _) => (c, 4)
    case Push(p) => (2 * p, 5)
    case Call(_) => (1, 5)
    case AluImm(op, _) => (op, 6)
    case Rst(y) => (y, 7)
    case _ => (0, 0)
  }

  lemma HighFirst(i: Instr)
    requires InHigh(i)
    ensures var (y, z) := HighDigits(i); High(i) != [] && High(i)[0] == 0xC0 + 8 * y + z && Octal(y) && Octal(z)
    ensures HasWord(i) ==> |High(i)| == 3 && High(i)[1..] == Word(i.nn)
  {
  }

  lemma HighGroup(mem: Mem, a: u16, i: Instr, op: byte)
    requires InHigh(i) && High(i) != [] && op == High(i)[0]
    requires op / 8 % 8 == HighDigits(i).0 && op % 8 == HighDigits(i).1
    requires (HasWord(i) ==> W(mem, a + 1) == i.nn) && (|High(i)| == 2 ==> B(mem, a + 1) == High(i)[1])
    ensures Group3(op, mem, a + 1) == Fetched(i, |High(i)|)
  {
  }

  lemma HighDecodes(mem: Mem, a: u16, i: Instr)
    requires InHigh(i) && Holds(mem, a, High(i))
    ensures Decode(mem, a) == Fetched(i, |High(i)|)
  {
    var (y, z) := HighDigits(i);
    HighFirst(i);
    Fetches(mem, a, High(i));
    if HasWord(i) { WordRead(mem, a, High(i), i.nn); }
    DecodesHigh(mem, a, y, z);
    HighGroup(mem, a, i, High(i)[0]);
  }

  function EdDigits(i: Instr): (int, int) {
    match i
    case InC(r) => (r, 0)
    case OutC(r) => (r, 1)
    case SbcHl(p) => (2 * p, 2)
    case AdcHl(p) => (2 * p + 1, 2)
    case StPairMem(p, _) => (2 * p, 3)
    case LdPairMem(p, _) => (2 * p + 1, 3)
    case Neg => (0, 4)
    case RetN(y) => (y, 5)
    case Im(y) => (y, 6)
    case LdIA => (0, 7)
    case LdRA => (1, 7)
    case LdAI => (2, 7)
    case LdAR => (3, 7)
    case Rrd => (4, 7)
    case Rld => (5, 7)
    case Block(y, z) => (y, z)
    case _ => (0, 0)
  }

  lemma EdFirst(i: Instr)
    requires InEd(i)
    ensures var (y, z) := EdDigits(i);
            Ed(i) != [] && Ed(i)[0] == (if i.Block? then 0x80 else 0x40) + 8 * y + z && Octal(y) && Octal(z)
    ensures i.StPairMem? || i.LdPairMem? ==> |Ed(i)| == 3 && Ed(i)[1..] == Word(i.nn)
  {
  }

  lemma EdOctal(q: int, y: int, z: int)
    requires Octal(y) && Octal(z) && 0 <= q < 4
    ensures var op := 64 * q + 8 * y + z; op / 64 == q && op / 8 % 8 == y && op % 8 == z
  {
  }

  lemma EdGroup(mem: Mem, a: int, i: Instr, op: byte)
    requires InEd(i) && Ed(i) != [] && op == Ed(i)[0] && op / 64 == (if i.Block? then 2 else 1)
    requires op / 8 % 8 == EdDigits(i).0 && op % 8 == EdDigits(i).1
    requires i.StPairMem? || i.LdPairMem? ==> W(mem, a) == i.nn
    ensures DecodeEd(op, mem, a) == Fetched(i, 1 + |Ed(i)|)
  {
  }

  lemma EdDecodes(mem: Mem, a: u16, i: Instr)
    requires InEd(i) && Holds(mem, a, Prefixed(i))
    ensures Decode(mem, a) == Fetched(i, 1 + |Ed(i)|)
  {
    var b := Prefixed(i);
    var (y, z) := EdDigits(i);
    EdFirst(i);
    Fetches(mem, a, b);
    assert b[1] == Ed(i)[0];
    if i.StPairMem? || i.LdPairMem? { assert b[2] == Ed(i)[1..][0] && b[3] == Ed(i)[1..][1]; }
    EdOctal(if i.Block? then 2 else 1, y, z);
    DecodesHigh(mem, a, 5, 5);
    EdGroup(mem, a + 2, i, Ed(i)[0]);
  }

  function IdxDigits(x: IndexOp): (int, int, int) {
    match x
    case XAdd(p) => (0, 2 * p + 1, 1)
    case XLd(_) => (0, 4, 1)
    case XSt(_) => (0, 4, 2)
    case XLdMem(_) => (0, 5, 2)
    case XInc => (0, 4, 3)
    case XDec => (0, 5, 3)
    case XIncR(r) => (0, r, 4)
    case XDecR(r) => (0, r, 5)
    case XIncM(_) => (0, 6, 4)
    case XDecM(_) => (0, 6, 5)
    case XLdImm(r, _) => (0, r, 6)
    case XLdMImm(_, _) => (0, 6, 6)
    case XStR(_, r) => (1, 6, r)
    case XLdR(r, _) => (1, r, 6)
    case XLdRR(r, s) => (1, r, s)
    case XAlu(op, s) => (2, op, s)
    case XAluM(op, _) => (2, op, 6)
    case XPop => (3, 4, 1)
    case XPush => (3, 4, 5)
    case XJp => (3, 5, 1)
    case XLdSp => (3, 7, 1)
    case XExSp => (3, 4, 3)
    case XCb(_, _) => (3, 1, 3)
    case XNone => (0, 0, 0)
  }

  predicate IdxWord(x: IndexOp) { x.XLd? || x.XSt? || x.XLdMem? }

  lemma IdxFirst(x: IndexOp)
    requires InIndex(x)
    ensures var (q, y, z) := IdxDigits(x);
            Idx(x) != [] && Idx(x)[0] == 64 * q + 8 * y + z && 0 <= q < 4 && Octal(y) && Octal(z)
    ensures IdxWord(x) ==> |Idx(x)| == 3 && Idx(x)[1..] == Word(x.nn)
  {
  }

  lemma IdxGroup(mem: Mem, a: int, x: IndexOp, op: byte)
    requires InIndex(x) && Idx(x) != [] && op == Idx(x)[0]
    requires op / 64 == IdxDigits(x).0 && op / 8 % 8 == IdxDigits(x).1 && op % 8 == IdxDigits(x).2
    requires if IdxWord(x) then W(mem, a) == x.nn
             else (|Idx(x)| > 1 ==> B(mem, a) == Idx(x)[1]) && (|Idx(x)| > 2 ==> B(mem, a + 1) == Idx(x)[2])
    ensures DecodeIndex(op, mem, a) == (x, 1 + |Idx(x)|)
  {
  }

  lemma IndexDecodes(mem: Mem, a: u16, reg: IndexReg, x: IndexOp)
    requires InIndex(x) && Holds(mem, a, [if reg == IX then 0xDD else 0xFD] + Idx(x))
    ensures Decode(mem, a) == Fetched(Index(reg, x), 1 + |Idx(x)|)
  {
    var b := [if reg == IX then 0xDD else 0xFD] + Idx(x);
    var (q, y, z) := IdxDigits(x);
    IdxFirst(x);
    Fetches(mem, a, b);
    assert b[1] == Idx(x)[0];
    if |Idx(x)| > 1 { assert b[2] == Idx(x)[1]; }
    if |Idx(x)| > 2 { assert b[3] == Idx(x)[2]; }
    if IdxWord(x) { assert Idx(x)[1] == Idx(x)[1..][0] && Idx(x)[2] == Idx(x)[1..][1]; }
    EdOctal(q, y, z);
    DecodesPrefix(mem, a, b[0]);
    IdxGroup(mem, a + 2, x, Idx(x)[0]);
  }

  lemma OneTable(i: Instr)
    requires Encodable(i) && !i.Halt? && !i.Ld? && !i.Alu? && !i.Index?
    ensures if InEd(i) then Encode(i) == Prefixed(i)
            else if InLow(i) then Encode(i) == Low(i) else InHigh(i) && Encode(i) == High(i)
  {
  }

  lemma RegisterDecodes(mem: Mem, a: u16, i: Instr)
    requires (i.Halt? || i.Ld? || i.Alu?) && Encodable(i) && Holds(mem, a, Encode(i))
    ensures Decode(mem, a) == Fetched(i, |Encode(i)|)
  {
    Fetches(mem, a, Encode(i));
    if i.Ld? { DecodesRegister(mem, a, i.r, i.s); } else if i.Alu? { DecodesAlu(mem, a, i.op, i.s); }
  }

  lemma TableDecodes(mem: Mem, a: u16, i: Instr)
    requires Encodable(i) && !i.Halt? && !i.Ld? && !i.Alu? && !i.Index? && Holds(mem, a, Encode(i))
    ensures Decode(mem, a) == Fetched(i, |Encode(i)|)
  {
    OneTable(i);
    if InEd(i) { EdDecodes(mem, a, i); } else if InLow(i) { LowDecodes(mem, a, i); } else { HighDecodes(mem, a, i); }
  }

  /** Main result: the emulator fetches the encoding of every instruction as that instruction, whole. */
  lemma DecodeInverts(mem: Mem, a: u16, i: Instr)
    requires Encodable(i) && Holds(mem, a, Encode(i))
    ensures Decode(mem, a) == Fetched(i, |Encode(i)|)
  {
    if i.Halt? || i.Ld? || i.Alu? { RegisterDecodes(mem, a, i); }
    else if i.Index? { IndexDecodes(mem, a, i.reg, i.x); }
    else { TableDecodes(mem, a, i); }
  }
}
