/**
 What the calculator computes, against arithmetic on unbounded integers: a line's value is the exact one kept
 in 16 bits, and the exact one itself when nothing on the way to it leaves 16 bits.
 */
module EcalcExact {
  import opened Machine
  import opened Ecalc
  import opened EcalcTrees
  import opened EcalcLines

  // ---- exact arithmetic -----------------------------------------------------------------------------------

  function Abs(x: int): nat { if x < 0 then 0 - x else x }

  /** Division towards zero: the quotient of the sizes, with the sign of the product. */
  function Truncated(x: int, y: int): int
    requires y != 0
  {
    var q := Abs(x) / Abs(y);
    if (x < 0) == (y < 0) then q else 0 - q
  }

  /** The 16 low bits in two's complement. */
  function Bits(x: int): u16 { x % 0x1_0000 }

  /** The number whose 16 bits are `p` of the operands' bits. */
  function Combined(p: (bool, bool) -> bool, x: int, y: int): int { Int16(Bitwise16(p, Bits(x), Bits(y))) }

  /** The operators as mathematics has them; a power with a negative exponent counts as 0. */
  function Operation(op: Token, x: int, y: int): int {
    match op
    case Add => x + y
    case Sub => x - y
    case Mul => x * y
    case Div => if y == 0 then 0 else Truncated(x, y)
    case Exp => if y < 0 then 0 else Power(x, y)
    case And => Combined(Both, x, y)
    case Or => Combined(Either, x, y)
    case Xor => Combined(Unlike, x, y)
    case _ => x
  }

  function Exact(t: Tree, ans: int): int {
    match t
    case Lit(n) => n
    case Last => ans
    case Plus(a) => Exact(a, ans)
    case Minus(a) => 0 - Exact(a, ans)
    case Flip(a) => -1 - Exact(a, ans)
    case Group(a) => Exact(a, ans)
    case Bin(op, l, r) => Operation(op, Exact(l, ans), Exact(r, ans))
  }

  /** Operators whose 16-bit result depends on the 16 low bits of their operands alone. */
  predicate Modular(op: Token) { op in {Add, Sub, Mul, And, Or, Xor} }

  predicate AllModular(t: Tree) {
    match t
    case Lit(_) => true
    case Last => true
    case Plus(a) => AllModular(a)
    case Minus(a) => AllModular(a)
    case Flip(a) => AllModular(a)
    case Group(a) => AllModular(a)
    case Bin(op, l, r) => Modular(op) && AllModular(l) && AllModular(r)
  }

  predicate Fits(x: int) { -0x8000 <= x < 0x8000 }

  /** Every partial result fits 16 bits, and nothing is divided by zero. */
  predicate AllFit(t: Tree, ans: int) {
    && Fits(Exact(t, ans))
    && match t
       case Lit(_) => true
       case Last => true
       case Plus(a) => AllFit(a, ans)
       case Minus(a) => AllFit(a, ans)
       case Flip(a) => AllFit(a, ans)
       case Group(a) => AllFit(a, ans)
       case Bin(op, l, r) => AllFit(l, ans) && AllFit(r, ans) && (op == Div ==> Exact(r, ans) != 0)
  }

  // ---- 16 bits ---------------------------------------------------------------------------------------------

  lemma FitsStay(x: int)
    requires Fits(x)
    ensures S16(x) == x
  {
  }

  lemma BitsWrap(x: int)
    ensures Bits(S16(x)) == Bits(x)
  {
    var k := Carried(x);
    Periodic(S16(x), k);
  }

  lemma LogicApplies(byZero: i16, op: Token, x: int, y: int)
    requires op in {And, Or, Xor}
    ensures Apply(byZero, op, S16(x), S16(y)) == S16(Operation(op, x, y))
  {
    BitsWrap(x);
    BitsWrap(y);
    FitsStay(Operation(op, x, y));
  }

  lemma ModularApplies(byZero: i16, op: Token, x: int, y: int)
    requires Modular(op)
    ensures Apply(byZero, op, S16(x), S16(y)) == S16(Operation(op, x, y))
  {
    if op in {And, Or, Xor} { LogicApplies(byZero, op, x, y); }
    else if op == Mul { ProductsWrap(x, y); }
    else { SumsWrap(x, y); }
  }

  /** Main result: with + - * and the bitwise operators a tree's value is the exact one, reduced once. */
  lemma {:induction false} ValueWraps(ans: i16, byZero: i16, t: Tree)
    requires AllModular(t)
    ensures Value(Calculator(ans, byZero), t) == S16(Exact(t, ans))
  {
    match t
    case Lit(n) => FitsStay(n);
    case Last => FitsStay(ans);
    case Plus(a) => ValueWraps(ans, byZero, a);
    case Minus(a) =>
      ValueWraps(ans, byZero, a);
      SumsWrap(0, Exact(a, ans));
    case Flip(a) =>
      ValueWraps(ans, byZero, a);
      SumsWrap(-1, Exact(a, ans));
    case Group(a) => ValueWraps(ans, byZero, a);
    case Bin(op, l, r) =>
      ValueWraps(ans, byZero, l);
      ValueWraps(ans, byZero, r);
      ModularApplies(byZero, op, Exact(l, ans), Exact(r, ans));
  }

  // ---- without overflow --------------------------------------------------------------------------------------

  lemma SizesDivide(a: nat, b: nat, q: nat)
    requires b > 0 && q == a / b
    ensures q <= a && (b > 1 && a > 0 ==> q < a) && 0 <= a - q * b < b
  {
    assert a == b * q + a % b;
    Larger(b, q);
  }

  lemma Larger(b: nat, q: nat)
    requires b > 0
    ensures b * q >= q && (b > 1 && q > 0 ==> b * q > q)
  {
  }

  /** The remainder of a truncated division, from that of the sizes. */
  lemma Remainder(x: int, y: int)
    requires y != 0
    ensures x - Truncated(x, y) * y == if x < 0 then 0 - (Abs(x) - Abs(x) / Abs(y) * Abs(y))
                                       else Abs(x) - Abs(x) / Abs(y) * Abs(y)
  {
  }

  /** The code's four cases are the truncated quotient. */
  lemma QuotientIs(byZero: i16, x: i16, y: i16)
    requires y != 0
    ensures Quotient(byZero, x, y) == S16(Truncated(x, y))
  {
  }

  /** The remainder is smaller than the divisor and has the dividend's sign. */
  predicate Divides(x: int, y: int, q: int) {
    var r := x - q * y; Abs(r) < Abs(y) && (r == 0 || (r < 0) == (x < 0))
  }

  lemma RestDivides(x: int, y: int, q: int, rest: nat)
    requires y != 0 && rest < Abs(y) && x - q * y == (if x < 0 then 0 - rest else rest)
    ensures Divides(x, y, q)
  {
  }

  lemma TruncatedDivides(x: int, y: int)
    requires y != 0
    ensures Divides(x, y, Truncated(x, y))
  {
    SizesDivide(Abs(x), Abs(y), Abs(x) / Abs(y));
    Remainder(x, y);
    RestDivides(x, y, Truncated(x, y), Abs(x) - Abs(x) / Abs(y) * Abs(y));
  }

  lemma TruncatedFits(x: i16, y: i16)
    requires y != 0
    ensures if x == -0x8000 && y == -1 then Truncated(x, y) == 0x8000 else Fits(Truncated(x, y))
  {
    SizesDivide(Abs(x), Abs(y), Abs(x) / Abs(y));
  }

  /** The code's division truncates, and overflows on one pair of operands. */
  lemma DivisionTruncates(byZero: i16, x: i16, y: i16)
    requires y != 0
    ensures var q := Apply(byZero, Div, x, y);
            if x == -0x8000 && y == -1 then q == -0x8000 else q == Truncated(x, y) && Divides(x, y, q)
  {
    QuotientIs(byZero, x, y);
    TruncatedDivides(x, y);
    TruncatedFits(x, y);
  }

  lemma FitApplies(byZero: i16, op: Token, x: i16, y: i16)
    requires OpLevel(op) < FACTOR && Fits(Operation(op, x, y)) && (op == Div ==> y != 0)
    ensures Apply(byZero, op, x, y) == Operation(op, x, y)
  {
    FitsStay(Operation(op, x, y));
    if op == Div { DivisionTruncates(byZero, x, y); }
    else if op == Exp { PowerApplies(x, y); }
    else {
      FitsStay(x);
      FitsStay(y);
      ModularApplies(byZero, op, x, y);
    }
  }

  lemma PowerApplies(x: i16, y: i16)
    requires Fits(Operation(Exp, x, y))
    ensures IPow(x, y) == Operation(Exp, x, y)
  {
    FitsStay(Operation(Exp, x, y));
  }

  /** Main result: a tree whose partial results all fit has its exact value, and complains of nothing. */
  lemma {:induction false} ValueExact(ans: i16, byZero: i16, t: Tree)
    requires Proper(t) && AllFit(t, ans)
    ensures Value(Calculator(ans, byZero), t) == Exact(t, ans) && ZeroDivisions(Calculator(ans, byZero), t) == 0
  {
    match t
    case Lit(_) =>
    case Last =>
    case Plus(a) => ValueExact(ans, byZero, a);
    case Minus(a) =>
      ValueExact(ans, byZero, a);
      FitsStay(Exact(t, ans));
    case Flip(a) =>
      ValueExact(ans, byZero, a);
      FitsStay(Exact(t, ans));
    case Group(a) => ValueExact(ans, byZero, a);
    case Bin(op, l, r) =>
      ValueExact(ans, byZero, l);
      ValueExact(ans, byZero, r);
      FitApplies(byZero, op, Exact(l, ans), Exact(r, ans));
  }

  /** The bitwise operators, bit by bit. */
  lemma BitsCombine(byZero: i16, op: Token, x: i16, y: i16, k: nat)
    requires k < 16 && op in {And, Or, Xor}
    ensures var (a, b) := (TestBit(Bits(x), k), TestBit(Bits(y), k));
            TestBit(Bits(Apply(byZero, op, x, y)), k)
            <==> if op == And then a && b else if op == Or then a || b else a != b
  {
    var p := if op == And then Both else if op == Or then Either else Unlike;
    BitsOfInt(Bitwise16(p, Bits(x), Bits(y)));
    BitwiseBit(p, Bits(x), Bits(y), 16, k);
  }

  lemma BitsOfInt(w: u16)
    ensures Bits(Int16(w)) == w
  {
  }

  /** Main result, on lines: a printed tree, in any spacing, is read to the end of the line and computed. */
  lemma LineComputes(ans: i16, byZero: i16, t: Tree, gaps: seq<nat>)
    requires Proper(t) && |gaps| == |Print(t, EXPR)| + 1
    ensures Writable(Print(t, EXPR))
    ensures var r := Parse(Calculator(ans, byZero), EXPR, Lex(Render(Print(t, EXPR), gaps)));
            && r.rest == []
            && (AllModular(t) ==> r.val == S16(Exact(t, ans)))
            && (AllFit(t, ans) ==> r.val == Exact(t, ans) && r.errs == 0)
  {
    LineEvaluates(Calculator(ans, byZero), t, gaps);
    if AllModular(t) { ValueWraps(ans, byZero, t); }
    if AllFit(t, ans) { ValueExact(ans, byZero, t); }
  }
}
