/** Shifts of numbers of n bytes, one byte at a time through the carry: to the left, and to the right. */
module Z80Shift {
  import opened Machine
  import opened Z80Alu
  import opened Z80Exec

  const RL := 2
  const RR := 3

  /** What a shift makes of the flags and a byte. */
  type ByteShift = (Flags, byte) -> (byte, Flags)

  /** The shift `y` of the CB group. */
  function Cb(y: int): ByteShift { (f, a) => Shift(f, y, a) }

  /** A shift applied from the low byte up. */
  function Leftwards(shift: ByteShift, a: seq<byte>, f: Flags): (r: (seq<byte>, Flags))
    ensures |r.0| == |a|
  {
    if a == [] then ([], f)
    else
      var (x, g) := shift(f, a[0]);
      var (rest, h) := Leftwards(shift, a[1..], g);
      ([x] + rest, h)
  }

  /** The same from the high byte down; the string is little-endian still. */
  function Rightwards(shift: ByteShift, a: seq<byte>, f: Flags): (r: (seq<byte>, Flags))
    ensures |r.0| == |a|
  {
    if a == [] then ([], f)
    else
      var n := |a| - 1;
      var (x, g) := shift(f, a[n]);
      var (rest, h) := Rightwards(shift, a[..n], g);
      (rest + [x], h)
  }

  /** The byte moves one place to the left, with the carry below and above it. */
  predicate Doubled(a: byte, f: Flags, x: byte, g: Flags) {
    x as int + 256 * Carry(g) == 2 * (a as int) + Carry(f)
  }

  ghost predicate RotatesLeft(shift: ByteShift) {
    forall f, a :: Doubled(a, f, shift(f, a).0, shift(f, a).1)
  }

  /** RL does, and in the code RR does too. */
  lemma BothRotateLeft(y: int)
    requires y == RL || y == RR
    ensures RotatesLeft(Cb(y))
  {
    forall f, a ensures Doubled(a, f, Cb(y)(f, a).0, Cb(y)(f, a).1) {
      assert Cb(y)(f, a) == Shift(f, y, a);
    }
  }

  lemma {:induction false} LeftSums(shift: ByteShift, a: seq<byte>, f: Flags)
    requires RotatesLeft(shift)
    ensures var (r, g) := Leftwards(shift, a, f); Value(r) + Base(|a|) * Carry(g) == 2 * Value(a) + Carry(f)
  {
    if a != [] {
      var (x, g) := shift(f, a[0]);
      var (rest, h) := Leftwards(shift, a[1..], g);
      assert Doubled(a[0], f, x, g);
      LeftSums(shift, a[1..], g);
      ValueCons(x, rest);
    }
  }

  /** RL over n bytes doubles the number, takes the carry in and gives the carry out. */
  lemma LeftDoubles(a: seq<byte>, f: Flags)
    ensures var (r, g) := Leftwards(Cb(RL), a, f); Value(r) + Base(|a|) * Carry(g) == 2 * Value(a) + Carry(f)
  {
    BothRotateLeft(RL);
    LeftSums(Cb(RL), a, f);
  }

  // ---- to the right -------------------------------------------------------------------------------------------

  /** A number halved, with the carry coming in above. */
  predicate Halves(a: seq<byte>, f: Flags, r: seq<byte>, g: Flags) {
    |r| == |a| && 2 * Value(r) + Carry(g) == Value(a) + Base(|a|) * Carry(f)
  }

  /** What moves nothing: 0xFF with the carry set, and 0 without. */
  predicate Still(a: byte, f: Flags) { a == if f.c then 0xFF else 0 }

  predicate AllStill(a: seq<byte>, f: Flags) { forall k :: 0 <= k < |a| ==> Still(a[k], f) }

  lemma {:induction false} ValueBounds(a: seq<byte>)
    ensures 0 <= Value(a) < Base(|a|)
  {
    if a != [] { ValueBounds(a[1..]); }
  }

  lemma {:induction false} ValueSnoc(a: seq<byte>, x: byte)
    ensures Value(a + [x]) == Value(a) + Base(|a|) * x as int && 0 <= Value(a) < Base(|a|)
  {
    ValueBounds(a);
    if a == [] {
      assert Value([x]) == x as int + 256 * Value([]) by { assert [x][1..] == []; }
      assert a + [x] == [x];
    } else {
      ValueSnoc(a[1..], x);
      assert (a + [x])[1..] == a[1..] + [x];
      ThriceAssociated(256, Base(|a| - 1), x);
    }
  }

  lemma ThriceAssociated(a: int, b: int, c: int)
    ensures (a * b) * c == a * (b * c)
  {
  }

  lemma NoneBetween(b: int, d: int)
    requires b > 0 && -b < b * d < 2 * b
    ensures d == 0 || d == 1
  {
  }

  /** Where the digits of the halved number must come from: `x` is the half of the top byte with its carry. */
  lemma TopByte(b: int, v: int, r: int, a: int, x: int, cin: int, cout: int)
    requires 0 <= v < b && 0 <= r < b && 0 <= cout <= 1
    requires 2 * (r + b * x) + cout == v + b * a + 256 * b * cin
    ensures 0 <= a + 256 * cin - 2 * x <= 1
  {
    var d := a + 256 * cin - 2 * x;
    assert b * d == b * a + 256 * b * cin - 2 * (b * x);
    NoneBetween(b, d);
  }

  /** `x` is the half of `a` with the carry above it. */
  predicate HalfByte(a: byte, f: Flags, x: byte) { 0 <= a as int + 256 * Carry(f) - 2 * (x as int) <= 1 }

  /** A rotation to the left is one to the right for two bytes only. */
  lemma LeftForRight(a: byte, f: Flags, x: byte, g: Flags)
    requires Doubled(a, f, x, g)
    ensures (HalfByte(a, f, x) <==> Still(a, f)) && (Still(a, f) ==> x == a && g.c == f.c)
  {
  }

  /** Halving a number is halving its top byte, and the lower ones with what comes out of it. */
  lemma HalvesParts(low: seq<byte>, a: byte, f: Flags, rest: seq<byte>, x: byte, h: Flags)
    requires |rest| == |low|
    ensures Halves(low + [a], f, rest + [x], h) <==>
            2 * (Value(rest) + Base(|low|) * x as int) + Carry(h)
            == Value(low) + Base(|low|) * a as int + 256 * Base(|low|) * Carry(f)
  {
    ValueSnoc(low, a);
    ValueSnoc(rest, x);
    assert Base(|low| + 1) == 256 * Base(|low|);
  }

  lemma StillParts(low: seq<byte>, a: byte, f: Flags)
    ensures AllStill(low + [a], f) <==> AllStill(low, f) && Still(a, f)
  {
    var all := low + [a];
    if AllStill(all, f) {
      assert all[|low|] == a;
      forall k | 0 <= k < |low| ensures Still(low[k], f) { assert all[k] == low[k]; }
    }
  }

  lemma StillSum(b: int, a: byte, f: Flags)
    requires Still(a, f)
    ensures b * a as int + 256 * b * Carry(f) == 2 * (b * a as int) + b * Carry(f)
  {
  }

  /** One byte more on top, rotated to the left. */
  lemma RightStep(low: seq<byte>, a: byte, f: Flags, rest: seq<byte>, x: byte, g: Flags, h: Flags)
    requires |rest| == |low| && (Halves(low, g, rest, h) <==> AllStill(low, g)) && Doubled(a, f, x, g)
    ensures Halves(low + [a], f, rest + [x], h) <==> AllStill(low + [a], f)
  {
    LeftForRight(a, f, x, g);
    HalvesParts(low, a, f, rest, x, h);
    StillParts(low, a, f);
    ValueSnoc(low, x);
    ValueSnoc(rest, x);
    if Halves(low + [a], f, rest + [x], h) {
      TopByte(Base(|low|), Value(low), Value(rest), a, x, Carry(f), Carry(h));
    }
    if Still(a, f) { StillSum(Base(|low|), a, f); }
  }

  lemma {:induction false} LeftHalves(shift: ByteShift, a: seq<byte>, f: Flags)
    requires RotatesLeft(shift)
    ensures var (r, g) := Rightwards(shift, a, f); Halves(a, f, r, g) <==> AllStill(a, f)
  {
    if a != [] {
      var low, top := a[..|a| - 1], a[|a| - 1];
      var (x, g) := shift(f, top);
      var (rest, h) := Rightwards(shift, low, g);
      LeftHalves(shift, low, g);
      assert Doubled(top, f, x, g);
      RightStep(low, top, f, rest, x, g, h);
      assert a == low + [top];
    }
  }

  /**
   Main result: RR rotates to the left, so RR over n bytes, from the top down, halves the number if and only
   if there is nothing to move: all bytes are 0 and the carry is clear, or all are 0xFF and it is set.
   */
  lemma RightHalves(a: seq<byte>, f: Flags)
    ensures var (r, g) := Rightwards(Cb(RR), a, f); Halves(a, f, r, g) <==> AllStill(a, f)
  {
    BothRotateLeft(RR);
    LeftHalves(Cb(RR), a, f);
  }

  /** Halving 2 gives 4. */
  lemma RrDoubles(f: Flags)
    requires !f.c
    ensures Rightwards(Cb(RR), [2], f).0 == [4]
  {
    BothRotateLeft(RR);
    var (x, g) := Cb(RR)(f, 2);
    assert Doubled(2, f, x, g);
    assert [2][..0] == [] && [] + [x] == [x];
    assert Rightwards(Cb(RR), [], g) == ([], g);
  }
}
