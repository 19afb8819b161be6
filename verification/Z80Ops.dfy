/** What the emulator's byte operations compute: as numbers, or bit by bit, with their flags. */
module Z80Ops {
  import opened Machine
  import opened Z80Alu
  import opened Z80
  import opened Z80Exec

  // ---- flags -----------------------------------------------------------------------------------------------

  predicate ZeroSign(r: byte, g: Flags) { (g.z <==> r == 0) && (g.s <==> Signed8(r) < 0) }

  predicate InByte(v: int) { -0x80 <= v < 0x80 }

  lemma {:induction false} EvenOnes(b: nat, n: nat)
    ensures Even(b, n) <==> Ones(b, n) % 2 == 0
  {
    if n > 0 { EvenOnes(b / 2, n - 1); }
  }

  // ---- sums and differences ----------------------------------------------------------------------------------

  /** `r` is the sum of two bytes and a carry, `g` its flags. */
  predicate Added(a: byte, b: byte, cin: int, r: byte, g: Flags) {
    && r as int + 256 * Carry(g) == a as int + b as int + cin
    && (g.pv <==> !InByte(Signed8(a) + Signed8(b) + cin)) && ZeroSign(r, g) && !g.n
  }

  predicate Subtracted(a: byte, b: byte, cin: int, r: byte, g: Flags) {
    && r as int - 256 * Carry(g) == a as int - b as int - cin
    && (g.pv <==> !InByte(Signed8(a) - Signed8(b) - cin)) && ZeroSign(r, g) && g.n
  }

  lemma AddsByte(a: byte, b: byte, cin: int)
    requires 0 <= cin <= 1
    ensures var (r, g) := AddWith(a, b, cin); Added(a, b, cin, r, g)
  {
    AddByte(a, b, cin);
    assert Base(1) == 256 * Base(0);
  }

  lemma SubtractsByte(a: byte, b: byte, cin: int)
    requires 0 <= cin <= 1
    ensures var (r, g) := SubWith(a, b, cin); Subtracted(a, b, cin, r, g)
  {
    SubByte(a, b, cin);
    assert Base(1) == 256 * Base(0);
  }

  /** The flags of a comparison: those of the difference. */
  predicate Compared(a: byte, b: byte, g: Flags) {
    && (g.z <==> a == b) && (g.c <==> a < b) && g.n
    && (g.s <==> Signed8((a as int - b as int) % 256) < 0) && (g.pv <==> !InByte(Signed8(a) - Signed8(b)))
  }

  lemma Compares(a: byte, b: byte)
    ensures Compared(a, b, Cp8(a, b))
  {
    SubtractsByte(a, b, 0);
    assert Sub8(a, b).0 == (a as int - b as int) % 256;
  }

  // ---- bits ---------------------------------------------------------------------------------------------------

  /** Every bit of `r` is `p` of the bits of `a` and `b`. */
  ghost predicate BitsOf(p: (bool, bool) -> bool, a: byte, b: byte, r: byte) {
    forall k :: 0 <= k < 8 ==> (TestBit(r, k) <==> p(TestBit(a, k), TestBit(b, k)))
  }

  ghost predicate Conjoined(a: byte, b: byte, r: byte) {
    forall k :: 0 <= k < 8 ==> (TestBit(r, k) <==> TestBit(a, k) && TestBit(b, k))
  }

  ghost predicate Disjoined(a: byte, b: byte, r: byte) {
    forall k :: 0 <= k < 8 ==> (TestBit(r, k) <==> TestBit(a, k) || TestBit(b, k))
  }

  ghost predicate Differing(a: byte, b: byte, r: byte) {
    forall k :: 0 <= k < 8 ==> (TestBit(r, k) <==> TestBit(a, k) != TestBit(b, k))
  }

  predicate LogicFlags(r: byte, g: Flags) {
    ZeroSign(r, g) && (g.pv <==> Ones(r, 8) % 2 == 0) && !g.c && !g.n
  }

  lemma BitsByBit(p: (bool, bool) -> bool, a: byte, b: byte)
    ensures BitsOf(p, a, b, Bitwise8(p, a, b))
  {
    forall k | 0 <= k < 8 ensures TestBit(Bitwise8(p, a, b), k) <==> p(TestBit(a, k), TestBit(b, k)) {
      BitwiseBit(p, a, b, 8, k);
    }
  }

  lemma LogicSets(r: byte, h: bool)
    ensures LogicFlags(r, Logic(r, h))
  {
    EvenOnes(r, 8);
  }

  // ---- the eight operations on A --------------------------------------------------------------------------------

  /** ADD, ADC, SUB, SBC, AND, XOR, OR, CP of `a` and `b`, in the order of their encoding. */
  ghost predicate AluMeans(op: int, f: Flags, a: byte, b: byte, r: byte, g: Flags) {
    if op == 0 then Added(a, b, 0, r, g)
    else if op == 1 then Added(a, b, Carry(f), r, g)
    else if op == 2 then Subtracted(a, b, 0, r, g)
    else if op == 3 then Subtracted(a, b, Carry(f), r, g)
    else if op == 4 then Conjoined(a, b, r) && LogicFlags(r, g)
    else if op == 5 then Differing(a, b, r) && LogicFlags(r, g)
    else if op == 6 then Disjoined(a, b, r) && LogicFlags(r, g)
    else r == a && Compared(a, b, g)
  }

  /** Main result: what each of the eight operations makes of any two bytes and any flags. */
  lemma AluComputes(f: Flags, op: int, a: byte, b: byte)
    requires 0 <= op < 8
    ensures var (r, g) := AluResult(f, op, a, b); AluMeans(op, f, a, b, r, g)
  {
    var (r, g) := AluResult(f, op, a, b);
    if op < 2 { AddsByte(a, b, if op == 0 then 0 else Carry(f)); }
    else if op < 4 { SubtractsByte(a, b, if op == 2 then 0 else Carry(f)); }
    else if op == 7 { Compares(a, b); }
    else {
      BitsByBit(if op == 4 then Both else if op == 5 then Unlike else Either, a, b);
      LogicSets(r, op == 4);
    }
  }

  // ---- counting ----------------------------------------------------------------------------------------------------

  /** One more or one less: the flags of that sum, but the carry stays. */
  predicate Counted(f: Flags, a: byte, d: int, r: byte, g: Flags) {
    && r == (a as int + d) % 256 && (g.pv <==> !InByte(Signed8(a) + d)) && ZeroSign(r, g)
    && (g.n <==> d < 0) && g.c == f.c
  }

  lemma CountsByte(f: Flags, a: byte)
    ensures var (r, g) := Inc8(f, a); Counted(f, a, 1, r, g)
    ensures var (r, g) := Dec8(f, a); Counted(f, a, -1, r, g)
  {
  }

  // ---- A alone ---------------------------------------------------------------------------------------------------

  /** Flags that RLCA to CCF leave alone. */
  predicate SameSzp(f: Flags, g: Flags) { g.s == f.s && g.z == f.z && g.pv == f.pv }

  /** RLCA, RRCA, RLA, RRA, CPL, SCF, CCF, by their numbers; DAA does nothing. */
  ghost predicate AccumulatorMeans(y: int, f: Flags, a: byte, r: byte, g: Flags) {
    && SameSzp(f, g)
    && if y == 0 then (g.c <==> a >= 0x80) && r as int + 255 * Carry(g) == 2 * (a as int)
       else if y == 1 then (g.c <==> a % 2 == 1) && 2 * (r as int) == a as int + 255 * Carry(g)
       else if y == 2 then r as int + 256 * Carry(g) == 2 * (a as int) + Carry(f)
       else if y == 3 then 2 * (r as int) + Carry(g) == a as int + 256 * Carry(f)
       else if y == 4 then r == a && g == f
       else if y == 5 then (forall k :: 0 <= k < 8 ==> (TestBit(r, k) <==> !TestBit(a, k))) && g.c == f.c
       else if y == 6 then r == a && g.c
       else r == a && g.c == !f.c
  }

  lemma {:induction false} ComplementBit(a: nat, n: nat, k: nat)
    requires a < Pow2(n) && k < n
    ensures TestBit(Pow2(n) - 1 - a, k) <==> !TestBit(a, k)
    decreases n
  {
    var c := Pow2(n) - 1 - a;
    assert c / 2 == Pow2(n - 1) - 1 - a / 2 && c % 2 == 1 - a % 2;
    if k > 0 { ComplementBit(a / 2, n - 1, k - 1); }
  }

  /** Nothing but A and the flags changes. */
  predicate OnA(c: Cpu, r: Cpu) { r == c.(regs := c.regs[RA := r.regs[RA]], f := r.f) }

  lemma ByteParts(a: byte)
    ensures 0 <= a as int / 128 <= 1 && (a as int / 128 == 1 <==> a >= 0x80) && a == 2 * (a / 2) + a % 2
  {
  }

  lemma RotatesLeft(c: Cpu, y: int)
    requires y == 0 || y == 2
    ensures var r := Accumulator(c, y); OnA(c, r) && AccumulatorMeans(y, c.f, c.regs[RA], r.regs[RA], r.f)
  {
    ByteParts(c.regs[RA]);
  }

  lemma RotatesRight(c: Cpu, y: int)
    requires y == 1 || y == 3
    ensures var r := Accumulator(c, y); OnA(c, r) && AccumulatorMeans(y, c.f, c.regs[RA], r.regs[RA], r.f)
  {
    ByteParts(c.regs[RA]);
  }

  lemma AccumulatorComputes(c: Cpu, y: int)
    requires 0 <= y < 8
    ensures var r := Accumulator(c, y); OnA(c, r) && AccumulatorMeans(y, c.f, c.regs[RA], r.regs[RA], r.f)
  {
    var a := c.regs[RA];
    assert c.regs[RA := a] == c.regs;
    if y == 0 || y == 2 { RotatesLeft(c, y); } else if y < 4 { RotatesRight(c, y); } else if y == 5 { ComplementsA(a); }
  }

  lemma ComplementsA(a: byte)
    ensures forall k :: 0 <= k < 8 ==> (TestBit(255 - a, k) <==> !TestBit(a, k))
  {
    assert Pow2(8) == 256;
    forall k | 0 <= k < 8 ensures TestBit(255 - a, k) <==> !TestBit(a, k) { ComplementBit(a, 8, k); }
  }

  /** Two decimal digits in one byte. */
  function Bcd(x: nat): byte
    requires x < 100
  {
    x / 10 * 16 + x % 10
  }

  /** DAA does nothing, so after an ADD of decimal numbers A is their sum only when no digit is carried. */
  lemma DaaDecimal(c: Cpu, x: nat, y: nat)
    requires x < 100 && y < 100
    ensures var (v, g) := AluResult(c.f, 0, Bcd(x), Bcd(y));
            var r := Accumulator(c.(regs := c.regs[RA := v], f := g), 4);
            r.regs[RA] == Bcd((x + y) % 100) && (r.f.c <==> x + y >= 100) <==> x % 10 + y % 10 < 10 && x + y < 100
  {
    var (v, g) := AluResult(c.f, 0, Bcd(x), Bcd(y));
    AluComputes(c.f, 0, Bcd(x), Bcd(y));
    AccumulatorComputes(c.(regs := c.regs[RA := v], f := g), 4);
    DigitsAdd(x, y);
  }

  /** Sums of the high and of the low digits, and the digits of the decimal sum. */
  lemma DigitsCarry(u: nat, v: nat, h: nat, l: nat, d: nat)
    requires u <= 18 && v <= 18 && (if v < 10 then h == u && l == v else h == u + 1 && l == v - 10)
    requires d == if h < 10 then h else h - 10
    ensures (16 * u + v) % 256 == 16 * d + l && (16 * u + v >= 256 <==> h >= 10) <==> v < 10 && h < 10
  {
  }

  lemma BcdIs(x: nat, d: nat, l: nat)
    requires x == 10 * d + l && d < 10 && l < 10
    ensures Bcd(x) as int == 16 * d + l
  {
  }

  lemma DigitsAdd(x: nat, y: nat)
    requires x < 100 && y < 100
    ensures var (s, low) := (Bcd(x) as int + Bcd(y) as int, x % 10 + y % 10 < 10 && x + y < 100);
            s % 256 == Bcd((x + y) % 100) as int && (s >= 256 <==> x + y >= 100) <==> low
  {
    var (u, v) := (x / 10 + y / 10, x % 10 + y % 10);
    var (h, l) := if v < 10 then (u, v) else (u + 1, v - 10);
    var d := if h < 10 then h else h - 10;
    assert x + y == 10 * h + l && (x + y) % 100 == 10 * d + l;
    DigitsCarry(u, v, h, l, d);
    BcdIs((x + y) % 100, d, l);
  }

  // ---- the CB group ------------------------------------------------------------------------------------------------

  predicate ShiftFlags(r: byte, g: Flags) { ZeroSign(r, g) && (g.pv <==> Ones(r, 8) % 2 == 0) && !g.n }

  lemma ShiftedFlags(r: byte, c: bool)
    ensures ShiftFlags(r, Shifted(r, c)) && Shifted(r, c).c == c
  {
    EvenOnes(r, 8);
  }

  /** RLC, RRC, RL, RL again in place of RR, SLA, SRA, SLL and SRL, by their numbers. */
  predicate ShiftMeans(y: int, f: Flags, a: byte, r: byte, g: Flags) {
    && ShiftFlags(r, g)
    && if y == 0 then (g.c <==> a >= 0x80) && r as int + 255 * Carry(g) == 2 * (a as int)
       else if y == 1 then (g.c <==> a % 2 == 1) && 2 * (r as int) == a as int + 255 * Carry(g)
       else if y == 2 || y == 3 then r as int + 256 * Carry(g) == 2 * (a as int) + Carry(f)
       else if y == 4 then r as int + 256 * Carry(g) == 2 * (a as int)
       else if y == 5 then 2 * Signed8(r) + Carry(g) == Signed8(a)
       else if y == 6 then r as int + 256 * Carry(g) == 2 * (a as int) + 1
       else 2 * (r as int) + Carry(g) == a as int
  }

  /** A shift to the left brings in `low` and moves the top bit to the carry. */
  lemma LeftIs(f: Flags, y: int, a: byte, low: int)
    requires y in {0, 2, 3, 4, 6}
    requires low == if y == 0 then a as int / 128 else if y == 4 then 0 else if y == 6 then 1 else Carry(f)
    ensures var (r, g) := Shift(f, y, a); r == Left(a, low) && g == Shifted(r, a / 128 == 1)
  {
  }

  lemma ShiftsLeft(f: Flags, y: int, a: byte)
    requires y in {0, 2, 3, 4, 6}
    ensures var (r, g) := Shift(f, y, a); ShiftMeans(y, f, a, r, g)
  {
    var (r, g) := Shift(f, y, a);
    LeftIs(f, y, a, if y == 0 then a as int / 128 else if y == 4 then 0 else if y == 6 then 1 else Carry(f));
    ByteParts(a);
    ShiftedFlags(r, a / 128 == 1);
    LeftMeans(f, y, a, r, g);
  }

  lemma LeftMeans(f: Flags, y: int, a: byte, r: byte, g: Flags)
    requires y in {0, 2, 3, 4, 6} && ShiftFlags(r, g) && (g.c <==> a >= 0x80)
    requires r as int + 256 * Carry(g)
          == 2 * (a as int) + if y == 0 then Carry(g) else if y == 4 then 0 else if y == 6 then 1 else Carry(f)
    ensures ShiftMeans(y, f, a, r, g)
  {
  }

  lemma ShiftsRight(f: Flags, y: int, a: byte)
    requires y in {1, 7}
    ensures var (r, g) := Shift(f, y, a); ShiftMeans(y, f, a, r, g)
  {
    ByteParts(a);
    ShiftedFlags(Shift(f, y, a).0, a % 2 == 1);
  }

  lemma ShiftsSigned(f: Flags, a: byte)
    ensures var (r, g) := Shift(f, 5, a); ShiftMeans(5, f, a, r, g)
  {
    ByteParts(a);
    ShiftedFlags(Shift(f, 5, a).0, a % 2 == 1);
  }

  /** What each shift makes of any byte and any flags. */
  lemma ShiftComputes(f: Flags, y: int, a: byte)
    requires 0 <= y < 8
    ensures var (r, g) := Shift(f, y, a); ShiftMeans(y, f, a, r, g)
  {
    if y == 5 { ShiftsSigned(f, a); } else if y in {1, 7} { ShiftsRight(f, y, a); } else { ShiftsLeft(f, y, a); }
  }

  /** BIT tells one bit; RES and SET change that bit and no other. */
  lemma BitsComputed(f: Flags, a: byte, y: int, k: nat)
    requires 0 <= y < 8
    ensures (BitTest(f, a, y).z <==> !TestBit(a, y)) && BitTest(f, a, y).c == f.c
    ensures TestBit(ResBit(a, y), k) <==> k != y && TestBit(a, k)
    ensures TestBit(PutBit(a, y), k) <==> k == y || TestBit(a, k)
  {
    ClearBitTest(a, y, k);
    SetBitTest(a, y, k);
  }

  /** What the CB instruction with digits `q`, `y` makes of a byte: a shift, a test, a bit cleared, a bit set. */
  ghost predicate CbMeans(q: int, y: int, f: Flags, v: byte, w: byte, g: Flags)
    requires 0 <= y < 8
  {
    if q == 0 then ShiftMeans(y, f, v, w, g)
    else if q == 1 then w == v && (g.z <==> !TestBit(v, y)) && g.c == f.c
    else g == f && forall k :: 0 <= k < 8 ==> (TestBit(w, k) <==> if k == y then q == 3 else TestBit(v, k))
  }

  lemma OctalDigits(q: int, y: int, z: int)
    requires 0 <= q < 4 && 0 <= y < 8 && 0 <= z < 8
    ensures var op := 64 * q + 8 * y + z; 0 <= op < 256 && op / 64 == q && op / 8 % 8 == y && op % 8 == z
  {
  }

  lemma CbExecutes(m: Mach, op: int)
    requires 0 <= op < 256
    ensures Same(Exec(m, Cb(op)), CbOp(m, op))
  {
  }

  /** What it makes of a byte and of the flags. */
  lemma CbComputes(f: Flags, q: int, y: int, v: byte) returns (w: byte, g: Flags)
    requires 0 <= q < 4 && 0 <= y < 8
    ensures CbMeans(q, y, f, v, w, g)
    ensures if q == 0 then w == Shift(f, y, v).0 && g == Shift(f, y, v).1
            else if q == 1 then w == v && g == BitTest(f, v, y)
            else w == (if q == 2 then ResBit(v, y) else PutBit(v, y)) && g == f
  {
    w, g := v, f;
    if q == 0 {
      w, g := Shift(f, y, v).0, Shift(f, y, v).1;
      ShiftComputes(f, y, v);
    } else if q == 1 {
      g := BitTest(f, v, y);
      BitsComputed(f, v, y, 0);
    } else {
      w := if q == 2 then ResBit(v, y) else PutBit(v, y);
      forall k | 0 <= k < 8 ensures TestBit(w, k) <==> if k == y then q == 3 else TestBit(v, k) {
        BitsComputed(f, v, y, k);
      }
    }
  }

  /** Main result: a CB instruction makes that of the register it names, or of the byte at HL, and no other. */
  lemma CbDoes(m: Mach, q: int, y: int, z: int) returns (w: byte, g: Flags)
    requires 0 <= q < 4 && 0 <= y < 8 && 0 <= z < 8
    ensures CbMeans(q, y, m.cpu.f, GetR(m, z), w, g)
    ensures var x := m.(cpu := m.cpu.(f := g));
            Same(Exec(m, Cb(64 * q + 8 * y + z)), if q == 1 then x else SetR(x, z, w))
  {
    OctalDigits(q, y, z);
    CbExecutes(m, 64 * q + 8 * y + z);
    w, g := CbComputes(m.cpu.f, q, y, GetR(m, z));
  }

  /** NEG is the difference from 0. */
  lemma NegDoes(m: Mach)
    ensures var r := ExecArith(m, Neg);
            OnA(m.cpu, r.cpu) && r == m.(cpu := r.cpu) && Subtracted(0, m.cpu.regs[RA], 0, r.cpu.regs[RA], r.cpu.f)
  {
    SubtractsByte(0, m.cpu.regs[RA], 0);
  }

  lemma NibbleParts(t: byte)
    ensures t == t / 16 * 16 + t % 16 && 0 <= t / 16 < 16
  {
  }

  lemma Digits(u: int, v: int)
    requires 0 <= v < 16
    ensures (16 * u + v) / 16 == u && (16 * u + v) % 16 == v
  {
  }

  /** A's new value and the new byte, of their old nibbles. */
  lemma Turned(a: byte, t: byte, left: bool, r: int, v: int)
    requires r == a as int / 16 * 16 + if left then t as int / 16 else t as int % 16
    requires v == if left then t as int % 16 * 16 + a as int % 16 else t as int / 16 + a as int % 16 * 16
    ensures var was := a as int % 16 * 256 + t as int;
            && r % 16 * 256 + v == (if left then was % 256 * 16 + was / 256 else was / 16 + was % 16 * 256)
            && r / 16 == a as int / 16
  {
    NibbleParts(a);
    NibbleParts(t);
    Digits(a as int / 16, if left then t as int / 16 else t as int % 16);
    Digits(a as int % 16 * 16 + t as int / 16, t as int % 16);
  }

  lemma NibblesAre(m: Mach, left: bool, t: byte, a: byte)
    requires m.rom <= Hl(m.cpu) < MEM_SIZE && t == m.mem[Hl(m.cpu)] && a == m.cpu.regs[RA]
    ensures var r := Nibbles(m, left);
            && r.cpu.regs[RA] as int == a as int / 16 * 16 + (if left then t as int / 16 else t as int % 16)
            && r.mem[Hl(m.cpu)] as int
               == (if left then t as int % 16 * 16 + a as int % 16 else t as int / 16 + a as int % 16 * 16)
            && r.mem == m.mem[Hl(m.cpu) := r.mem[Hl(m.cpu)]]
            && ZeroSign(r.cpu.regs[RA], r.cpu.f) && r.cpu.f.c == m.cpu.f.c
  {
  }

  /** RLD and RRD turn the three nibbles of A's low half and the byte at HL by one place. */
  lemma NibblesTurn(m: Mach, left: bool)
    requires m.rom <= Hl(m.cpu) < MEM_SIZE
    ensures var (r, a) := (Nibbles(m, left), Hl(m.cpu));
            var was := m.cpu.regs[RA] as int % 16 * 256 + m.mem[a] as int;
            var now := r.cpu.regs[RA] as int % 16 * 256 + r.mem[a] as int;
            && now == (if left then was % 256 * 16 + was / 256 else was / 16 + was % 16 * 256)
            && r.cpu.regs[RA] as int / 16 == m.cpu.regs[RA] as int / 16 && r.mem == m.mem[a := r.mem[a]]
            && ZeroSign(r.cpu.regs[RA], r.cpu.f) && r.cpu.f.c == m.cpu.f.c
  {
    var r, t, a := Nibbles(m, left), m.mem[Hl(m.cpu)], m.cpu.regs[RA];
    NibblesAre(m, left, t, a);
    Turned(a, t, left, r.cpu.regs[RA], r.mem[Hl(m.cpu)]);
  }
}
