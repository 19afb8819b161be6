/** Bytes, 16-bit words and single-bit operations, as the 8-bit target sees them. */
module Machine {

  type byte = x: int | 0 <= x < 0x100
  type u16 = x: int | 0 <= x < 0x1_0000

  function Lo(w: u16): byte { w % 256 }

  function Hi(w: u16): byte { w / 256 }

  /** The value of a 16-bit `int` whose bit pattern is `w`. */
  function Int16(w: u16): int { if w < 0x8000 then w else w - 0x1_0000 }

  /** Plain equality and plain truth, for proofs that take large values and long predicates as a whole. */
  ghost predicate Same<T>(a: T, b: T) { a == b }

  predicate Fact(p: bool) { p }

  function Min(a: int, b: int): int { if a < b then a else b }

  function Max(a: int, b: int): int { if a < b then b else a }

  /** `b & (1 << k)`, `b | (1 << k)` and `b & ~(1 << k)`, bit by bit. */
  predicate TestBit(b: nat, k: nat) {
    if k == 0 then b % 2 == 1 else TestBit(b / 2, k - 1)
  }

  function SetBit(b: nat, k: nat): nat {
    if k == 0 then b / 2 * 2 + 1 else 2 * SetBit(b / 2, k - 1) + b % 2
  }

  function ClearBit(b: nat, k: nat): nat {
    if k == 0 then b / 2 * 2 else 2 * ClearBit(b / 2, k - 1) + b % 2
  }

  lemma {:induction false} BitOfQuotient(b: nat, k: nat)
    ensures Pow2(k) > 0 && (TestBit(b, k) <==> b / Pow2(k) % 2 == 1)
  {
    if k > 0 {
      BitOfQuotient(b / 2, k - 1);
      DivideTwice(b, 2, Pow2(k - 1));
    }
  }

  lemma DivideTwice(a: nat, b: nat, c: nat)
    requires b > 0 && c > 0
    ensures b * c > 0 && a / b / c == a / (b * c)
  {
    var q, r := a / b / c, a / b % c;
    DigitsOf(a, b, c, q, r);
    QuotientUnique(a, b * c, q, b * r + a % b);
  }

  lemma DigitsOf(a: nat, b: nat, c: nat, q: nat, r: nat)
    requires b > 0 && 0 <= r < c && a / b == c * q + r
    ensures b * c > 0 && a == b * c * q + (b * r + a % b) && 0 <= b * r + a % b < b * c
  {
    assert a == b * (c * q + r) + a % b;
    assert b * (c * q + r) == b * c * q + b * r;
    Below(b, r, c - 1);
    assert b * (c - 1) == b * c - b;
  }

  lemma Below(b: nat, r: int, s: int)
    requires r <= s
    ensures b * r <= b * s
  {
  }

  lemma QuotientUnique(a: int, d: int, q: int, r: int)
    requires 0 <= r < d && a == d * q + r
    ensures a / d == q
  {
    var k := a / d - q;
    assert d * (a / d) <= a < d * (a / d) + d && d * k == d * (a / d) - d * q;
    NoMultiple(d, k);
  }

  lemma NoMultiple(d: int, k: int)
    requires -d < d * k < d
    ensures k == 0
  {
  }

  function Pow2(n: nat): nat { if n == 0 then 1 else 2 * Pow2(n - 1) }

  lemma {:induction false} SetBitTest(b: nat, k: nat, j: nat)
    ensures TestBit(SetBit(b, k), j) <==> (k == j || TestBit(b, j))
  {
    if k > 0 && j > 0 { SetBitTest(b / 2, k - 1, j - 1); }
  }

  lemma {:induction false} ClearBitTest(b: nat, k: nat, j: nat)
    ensures TestBit(ClearBit(b, k), j) <==> (k != j && TestBit(b, j))
  {
    if k > 0 && j > 0 { ClearBitTest(b / 2, k - 1, j - 1); }
  }

  lemma {:induction false} BitBound(b: nat, k: nat, n: nat)
    requires k < n && b < Pow2(n)
    ensures SetBit(b, k) < Pow2(n) && ClearBit(b, k) < Pow2(n)
  {
    if k > 0 { BitBound(b / 2, k - 1, n - 1); }
  }

  // ---- bit by bit ------------------------------------------------------------------------------------

  predicate Both(a: bool, b: bool) { a && b }

  predicate Either(a: bool, b: bool) { a || b }

  predicate Unlike(a: bool, b: bool) { a != b }

  /** The number whose `n` low bits are `p` of the bits of `a` and `b`. */
  function Bitwise(p: (bool, bool) -> bool, a: nat, b: nat, n: nat): (r: nat)
    ensures r < Pow2(n)
  {
    if n == 0 then 0
    else 2 * Bitwise(p, a / 2, b / 2, n - 1) + if p(a % 2 == 1, b % 2 == 1) then 1 else 0
  }

  function Bitwise8(p: (bool, bool) -> bool, a: byte, b: byte): byte {
    assert Pow2(8) == 256;
    Bitwise(p, a, b, 8)
  }

  function Bitwise16(p: (bool, bool) -> bool, a: u16, b: u16): u16 {
    assert Pow2(16) == 0x1_0000 by { assert Pow2(8) == 256; }
    Bitwise(p, a, b, 16)
  }

  lemma {:induction false} BitwiseBit(p: (bool, bool) -> bool, a: nat, b: nat, n: nat, k: nat)
    requires k < n
    ensures TestBit(Bitwise(p, a, b, n), k) <==> p(TestBit(a, k), TestBit(b, k))
  {
    var r, bit := Bitwise(p, a / 2, b / 2, n - 1), if p(a % 2 == 1, b % 2 == 1) then 1 else 0;
    assert (2 * r + bit) / 2 == r && (2 * r + bit) % 2 == bit;
    if k > 0 { BitwiseBit(p, a / 2, b / 2, n - 1, k - 1); }
  }

  /** Numbers of `n` bits with the same bits are the same. */
  lemma {:induction false} SameBits(a: nat, b: nat, n: nat)
    requires a < Pow2(n) && b < Pow2(n) && forall k :: 0 <= k < n ==> TestBit(a, k) == TestBit(b, k)
    ensures a == b
  {
    if n > 0 {
      assert TestBit(a, 0) == TestBit(b, 0);
      forall k | 0 <= k < n - 1 ensures TestBit(a / 2, k) == TestBit(b / 2, k) {
        assert TestBit(a, k + 1) == TestBit(b, k + 1);
      }
      SameBits(a / 2, b / 2, n - 1);
    }
  }

  /** How many of the `n` low bits are set. */
  function Ones(b: nat, n: nat): nat { if n == 0 then 0 else b % 2 + Ones(b / 2, n - 1) }
}
