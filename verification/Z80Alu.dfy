/**
 The emulator's 8-bit adders and subtractors with their flags, and what chains of them compute:
 ADD/ADC and SUB/SBC over little-endian byte strings of any length.
 */
module Z80Alu {
  import opened Machine

  datatype Flags = Flags(s: bool, z: bool, y: bool, h: bool, x: bool, pv: bool, n: bool, c: bool)

  predicate Neg8(a: byte) { a >= 0x80 }

  predicate Bit(a: byte, m: int)
    requires m > 0
  {
    a / m % 2 == 1
  }

  function Carry(f: Flags): int { if f.c then 1 else 0 }

  /** Flags common to all four operations; `h` is bit 4 of the exclusive or of operands and result. */
  function Arith(a: byte, b: byte, r: byte, pv: bool, n: bool, c: bool): Flags {
    Flags(Neg8(r), r == 0, Bit(r, 0x20), (Bit(a, 0x10) != Bit(b, 0x10)) != Bit(r, 0x10), Bit(r, 0x08), pv, n, c)
  }

  /** `adc8` with carry in 0 or 1; `add8` is the case 0. */
  function AddWith(a: byte, b: byte, cin: int): (byte, Flags)
    requires 0 <= cin <= 1
  {
    var t := a as int + b as int + cin;
    var r: byte := t % 0x100;
    (r, Arith(a, b, r, Neg8(a) == Neg8(b) && Neg8(a) != Neg8(r), false, t >= 0x100))
  }

  /** `sbc8` with borrow in 0 or 1; `sub8` is the case 0. */
  function SubWith(a: byte, b: byte, cin: int): (byte, Flags)
    requires 0 <= cin <= 1
  {
    var t := a as int - b as int - cin;
    var r: byte := t % 0x100;
    (r, Arith(a, b, r, Neg8(a) != Neg8(b) && Neg8(a) != Neg8(r), true, t < 0))
  }

  function Add8(a: byte, b: byte): (byte, Flags) { AddWith(a, b, 0) }

  function Adc8(f: Flags, a: byte, b: byte): (byte, Flags) { AddWith(a, b, Carry(f)) }

  function Sub8(a: byte, b: byte): (byte, Flags) { SubWith(a, b, 0) }

  function Sbc8(f: Flags, a: byte, b: byte): (byte, Flags) { SubWith(a, b, Carry(f)) }

  /** `cp8` sets the flags of a subtraction, but takes bits 5 and 3 from the operand. */
  function Cp8(a: byte, b: byte): Flags {
    Sub8(a, b).1.(y := Bit(b, 0x20), x := Bit(b, 0x08))
  }

  // ---- numbers of n bytes ---------------------------------------------------------------------

  /** 256^n. */
  function Base(n: nat): (b: int)
    ensures b > 0 && (n > 0 ==> b % 2 == 0)
  {
    if n == 0 then 1 else 256 * Base(n - 1)
  }

  /** Unsigned value of a little-endian byte string. */
  function Value(a: seq<byte>): int {
    if a == [] then 0 else a[0] as int + 256 * Value(a[1..])
  }

  function Signed8(a: byte): int { if Neg8(a) then a as int - 0x100 else a as int }

  /** Two's complement value: the top byte counts as signed. */
  function Signed(a: seq<byte>): int
    requires a != []
  {
    if |a| == 1 then Signed8(a[0]) else a[0] as int + 256 * Signed(a[1..])
  }

  /** `v` is a value of `n` signed bytes. */
  predicate Fits(v: int, n: nat) { -Base(n) <= 2 * v < Base(n) }

  /** The signed reading is the unsigned one, less 256^n when the top bit is set; both stay in range. */
  lemma {:induction false} SignedValue(a: seq<byte>)
    requires a != []
    ensures Signed(a) == Value(a) - if Neg8(a[|a| - 1]) then Base(|a|) else 0
    ensures 0 <= Value(a) < Base(|a|) && Fits(Signed(a), |a|)
  {
    if |a| == 1 {
      assert a[1..] == [] && Base(1) == 256 * Base(0);
    } else {
      SignedValue(a[1..]);
      assert a[1..][|a| - 2] == a[|a| - 1];
    }
  }

  /** ADC from the low byte up, starting from a given carry: `add8` then `adc8` is the case 0. */
  function AddChain(a: seq<byte>, b: seq<byte>, cin: int): (r: (seq<byte>, Flags))
    requires |a| == |b| > 0 && 0 <= cin <= 1
    ensures |r.0| == |a|
  {
    var (x, f) := AddWith(a[0], b[0], cin);
    if |a| == 1 then ([x], f)
    else
      var (rest, g) := AddChain(a[1..], b[1..], Carry(f));
      ([x] + rest, g)
  }

  /** SBC from the low byte up: `sub8` then `sbc8` is the case 0. */
  function SubChain(a: seq<byte>, b: seq<byte>, cin: int): (r: (seq<byte>, Flags))
    requires |a| == |b| > 0 && 0 <= cin <= 1
    ensures |r.0| == |a|
  {
    var (x, f) := SubWith(a[0], b[0], cin);
    if |a| == 1 then ([x], f)
    else
      var (rest, g) := SubChain(a[1..], b[1..], Carry(f));
      ([x] + rest, g)
  }

  lemma ValueCons(x: byte, rest: seq<byte>)
    ensures Value([x] + rest) == x as int + 256 * Value(rest)
  {
    assert ([x] + rest)[1..] == rest;
  }

  /** One more byte below does not change whether a value fits. */
  lemma FitsLift(x: byte, v: int, n: nat)
    requires n > 0
    ensures Fits(x as int + 256 * v, n + 1) <==> Fits(v, n)
  {
    assert Base(n + 1) == 256 * Base(n);
    var h := Base(n) / 2;
    assert Base(n) == 2 * h;
  }

  lemma AddByte(a: byte, b: byte, cin: int)
    requires 0 <= cin <= 1
    ensures var (x, f) := AddWith(a, b, cin);
            && a as int + b as int + cin == x as int + 256 * Carry(f)
            && (f.pv <==> !Fits(Signed8(a) + Signed8(b) + cin, 1))
  {
    assert Base(1) == 256 * Base(0);
  }

  lemma SubByte(a: byte, b: byte, cin: int)
    requires 0 <= cin <= 1
    ensures var (x, f) := SubWith(a, b, cin);
            && a as int - b as int - cin == x as int - 256 * Carry(f)
            && (f.pv <==> !Fits(Signed8(a) - Signed8(b) - cin, 1))
  {
    assert Base(1) == 256 * Base(0);
  }

  /** The n-byte sum, its carry out, and whether it overflowed as a signed number. */
  ghost predicate Sums(a: seq<byte>, b: seq<byte>, cin: int, sum: seq<byte>, f: Flags)
    requires |a| == |b| > 0
  {
    && Value(sum) + (if f.c then Base(|a|) else 0) == Value(a) + Value(b) + cin
    && (f.pv <==> !Fits(Signed(a) + Signed(b) + cin, |a|))
  }

  ghost predicate Differs(a: seq<byte>, b: seq<byte>, cin: int, diff: seq<byte>, f: Flags)
    requires |a| == |b| > 0
  {
    && Value(diff) - (if f.c then Base(|a|) else 0) == Value(a) - Value(b) - cin
    && (f.pv <==> !Fits(Signed(a) - Signed(b) - cin, |a|))
  }

  lemma SumsOne(a: seq<byte>, b: seq<byte>, cin: int)
    requires |a| == |b| == 1 && 0 <= cin <= 1
    ensures var (x, f) := AddWith(a[0], b[0], cin); Sums(a, b, cin, [x], f)
  {
    AddByte(a[0], b[0], cin);
    assert a[1..] == [] && b[1..] == [] && [AddWith(a[0], b[0], cin).0][1..] == [] && Base(1) == 256 * Base(0);
  }

  /** One byte more below a sum, with its carry going up. */
  lemma SumsMore(a: seq<byte>, b: seq<byte>, cin: int, x: byte, c: int, rest: seq<byte>, g: Flags)
    requires |a| == |b| > 1 && a[0] as int + b[0] as int + cin == x as int + 256 * c
    requires Sums(a[1..], b[1..], c, rest, g)
    ensures Sums(a, b, cin, [x] + rest, g)
  {
    ValueCons(x, rest);
    var v := Signed(a[1..]) + Signed(b[1..]) + c;
    FitsLift(x, v, |a| - 1);
    assert Signed(a) + Signed(b) + cin == x as int + 256 * v;
  }

  /** The chain computes the n-byte sum with its carry out, and the last overflow flag is that of n bytes. */
  lemma {:induction false} AddChainSums(a: seq<byte>, b: seq<byte>, cin: int)
    requires |a| == |b| > 0 && 0 <= cin <= 1
    ensures var (r, f) := AddChain(a, b, cin); Sums(a, b, cin, r, f)
  {
    var (x, f) := AddWith(a[0], b[0], cin);
    AddByte(a[0], b[0], cin);
    if |a| == 1 {
      SumsOne(a, b, cin);
    } else {
      var (rest, g) := AddChain(a[1..], b[1..], Carry(f));
      AddChainSums(a[1..], b[1..], Carry(f));
      SumsMore(a, b, cin, x, Carry(f), rest, g);
    }
  }

  lemma DiffersOne(a: seq<byte>, b: seq<byte>, cin: int)
    requires |a| == |b| == 1 && 0 <= cin <= 1
    ensures var (x, f) := SubWith(a[0], b[0], cin); Differs(a, b, cin, [x], f)
  {
    SubByte(a[0], b[0], cin);
    assert a[1..] == [] && b[1..] == [] && [SubWith(a[0], b[0], cin).0][1..] == [] && Base(1) == 256 * Base(0);
  }

  /** One byte more below a difference, with its borrow going up. */
  lemma DiffersMore(a: seq<byte>, b: seq<byte>, cin: int, x: byte, c: int, rest: seq<byte>, g: Flags)
    requires |a| == |b| > 1 && a[0] as int - b[0] as int - cin == x as int - 256 * c
    requires Differs(a[1..], b[1..], c, rest, g)
    ensures Differs(a, b, cin, [x] + rest, g)
  {
    ValueCons(x, rest);
    var v := Signed(a[1..]) - Signed(b[1..]) - c;
    FitsLift(x, v, |a| - 1);
    assert Signed(a) - Signed(b) - cin == x as int + 256 * v;
  }

  lemma {:induction false} SubChainSubtracts(a: seq<byte>, b: seq<byte>, cin: int)
    requires |a| == |b| > 0 && 0 <= cin <= 1
    ensures var (r, f) := SubChain(a, b, cin); Differs(a, b, cin, r, f)
  {
    var (x, f) := SubWith(a[0], b[0], cin);
    SubByte(a[0], b[0], cin);
    if |a| == 1 {
      DiffersOne(a, b, cin);
    } else {
      var (rest, g) := SubChain(a[1..], b[1..], Carry(f));
      SubChainSubtracts(a[1..], b[1..], Carry(f));
      DiffersMore(a, b, cin, x, Carry(f), rest, g);
    }
  }
}
