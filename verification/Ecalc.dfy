/** ecalc: the tokens of a line and the recursive-descent evaluator, on 16-bit `int`s. */
module Ecalc {
  import opened Machine

  type i16 = x: int | -0x8000 <= x < 0x8000

  /** The value left in a 16-bit `int`. */
  function S16(x: int): i16 { Int16(x % 0x1_0000) }

  // ---- tokens -----------------------------------------------------------------------------------

  datatype Token = Bad | Num(v: i16) | LPar | RPar | Ans | Add | Sub | Mul | Div | Exp | And | Or | Xor | Not

  predicate IsDigit(c: char) { '0' <= c <= '9' }

  function DigitValue(c: char): nat
    requires IsDigit(c)
  {
    c as int - '0' as int
  }

  /** How many digits `s` starts with. */
  function DigitRun(s: string): (n: nat)
    ensures n <= |s| && (forall j :: 0 <= j < n ==> IsDigit(s[j])) && (n < |s| ==> !IsDigit(s[n]))
  {
    if s != [] && IsDigit(s[0]) then 1 + DigitRun(s[1..]) else 0
  }

  /** The number the digits write. */
  function Decimal(s: string): nat
    requires forall j :: 0 <= j < |s| ==> IsDigit(s[j])
  {
    if s == [] then 0 else 10 * Decimal(s[..|s| - 1]) + DigitValue(s[|s| - 1])
  }

  function Symbol(c: char): Token {
    match c
    case '+' => Add case '-' => Sub case '*' => Mul case '/' => Div case '(' => LPar case ')' => RPar
    case 'e' => Exp case '&' => And case '|' => Or case '^' => Xor case '~' => Not
    case _ => Bad
  }

  predicate AtAns(s: string) { |s| >= 3 && s[..3] == "ans" }

  /** The tokens of a line, up to its terminating NUL. */
  function Lex(s: string): (ts: seq<Token>)
    ensures |ts| <= |s|
  {
    if s == [] then []
    else if s[0] == ' ' then Lex(s[1..])
    else if IsDigit(s[0]) then
      var n := DigitRun(s);
      [Num(S16(Decimal(s[..n])))] + Lex(s[n..])
    else if AtAns(s) then [Ans] + Lex(s[3..])
    else [Symbol(s[0])] + Lex(s[1..])
  }

  // ---- arithmetic ---------------------------------------------------------------------------------

  /** The exact power. */
  function Power(x: int, y: nat): int { if y == 0 then 1 else x * Power(x, y - 1) }

  function IPow(x: i16, y: i16): i16 { if y < 0 then 0 else S16(Power(x, y)) }

  /** C's division, towards zero; `byZero` is whatever a division by zero leaves behind. */
  function Quotient(byZero: i16, x: i16, y: i16): i16 {
    if y == 0 then byZero
    else if y > 0 then S16(if x >= 0 then x / y else 0 - (0 - x) / y)
    else S16(if x >= 0 then 0 - x / (0 - y) else (0 - x) / (0 - y))
  }

  /** A bitwise operator on two's complement. */
  function OnBits(p: (bool, bool) -> bool, x: i16, y: i16): i16 {
    Int16(Bitwise16(p, x % 0x1_0000, y % 0x1_0000))
  }

  function Apply(byZero: i16, op: Token, x: i16, y: i16): i16 {
    match op
    case Add => S16(x + y)
    case Sub => S16(x - y)
    case Mul => S16(x * y)
    case Div => Quotient(byZero, x, y)
    case Exp => IPow(x, y)
    case And => OnBits(Both, x, y)
    case Or => OnBits(Either, x, y)
    case Xor => OnBits(Unlike, x, y)
    case _ => x
  }

  function Negated(x: i16): i16 { S16(0 - x) }

  function Complement(x: i16): i16 { S16(-1 - x) }

  /** The previous result, and the arithmetic of the binary operators. */
  datatype Env = Env(ans: i16, apply: (Token, i16, i16) -> i16)

  function Calculator(ans: i16, byZero: i16): Env {
    Env(ans, (op: Token, x: i16, y: i16) => Apply(byZero, op, x, y))
  }

  /** One error message for a division by zero. */
  function Complaint(op: Token, y: i16): nat { if op == Div && y == 0 then 1 else 0 }

  // ---- 16-bit arithmetic is modular ------------------------------------------------------------------

  /** How far a number is from its 16-bit value. */
  lemma Carried(x: int) returns (k: int)
    ensures x == S16(x) + k * 0x1_0000
  {
    k := if x % 0x1_0000 < 0x8000 then x / 0x1_0000 else x / 0x1_0000 + 1;
  }

  lemma Periodic(x: int, k: int)
    ensures S16(x + k * 0x1_0000) == S16(x) && (x + k * 0x1_0000) % 0x1_0000 == x % 0x1_0000
  {
  }

  lemma SumsWrap(x: int, y: int)
    ensures S16(S16(x) + S16(y)) == S16(x + y) && S16(S16(x) - S16(y)) == S16(x - y)
  {
    var j := Carried(x);
    var k := Carried(y);
    Periodic(S16(x) + S16(y), j + k);
    Periodic(S16(x) - S16(y), j - k);
  }

  lemma ProductsWrap(x: int, y: int)
    ensures S16(S16(x) * S16(y)) == S16(x * y)
  {
    var j := Carried(x);
    var k := Carried(y);
    var a, b := S16(x), S16(y);
    Expand(a, b, j, k);
    Periodic(a * b, a * k + b * j + j * k * 0x1_0000);
  }

  lemma Expand(a: int, b: int, j: int, k: int)
    ensures (a + j * 0x1_0000) * (b + k * 0x1_0000) == a * b + (a * k + b * j + j * k * 0x1_0000) * 0x1_0000
  {
    assert (a + j * 0x1_0000) * (b + k * 0x1_0000) == a * (b + k * 0x1_0000) + j * 0x1_0000 * (b + k * 0x1_0000);
    assert a * (b + k * 0x1_0000) == a * b + a * k * 0x1_0000;
    assert j * 0x1_0000 * (b + k * 0x1_0000) == b * j * 0x1_0000 + j * k * 0x1_0000 * 0x1_0000;
  }

  // ---- the evaluator ----------------------------------------------------------------------------------

  const EXPR := 0
  const OR := 1
  const XOR := 2
  const AND := 3
  const TERM := 4
  const EXPONENT := 5
  const FACTOR := 6

  /** The level at which a token is a binary operator. */
  function OpLevel(t: Token): nat {
    match t
    case Add | Sub => EXPR
    case Or => OR
    case Xor => XOR
    case And => AND
    case Mul | Div => TERM
    case Exp => EXPONENT
    case _ => FACTOR
  }

  /** Whether a level loops over its operator or takes at most one. */
  predicate Chained(level: nat) { level == EXPR || level == TERM || level == EXPONENT }

  /** A value, the tokens left, and how many errors were reported. */
  datatype Result = Result(val: i16, rest: seq<Token>, errs: nat)

  /** The function for `level`: one operand of the next level, then this level's operators. */
  function Parse(env: Env, level: nat, ts: seq<Token>): (r: Result)
    requires level <= FACTOR
    ensures |r.rest| <= |ts|
    decreases |ts|, 1, FACTOR - level
  {
    if level == FACTOR then Factor(env, ts)
    else
      var l := Parse(env, level + 1, ts);
      var m := More(env, level, l.val, l.rest);
      m.(errs := l.errs + m.errs)
  }

  function More(env: Env, level: nat, val: i16, ts: seq<Token>): (r: Result)
    requires level < FACTOR
    ensures |r.rest| <= |ts|
    decreases |ts|, 0, 0
  {
    if ts == [] || OpLevel(ts[0]) != level then Result(val, ts, 0)
    else
      var y := Parse(env, level + 1, ts[1..]);
      var v := env.apply(ts[0], val, y.val);
      var errs := y.errs + Complaint(ts[0], y.val);
      if !Chained(level) then Result(v, y.rest, errs)
      else var m := More(env, level, v, y.rest); m.(errs := errs + m.errs)
  }

  function Factor(env: Env, ts: seq<Token>): (r: Result)
    ensures |r.rest| <= |ts|
    decreases |ts|, 0, 0
  {
    if ts == [] then Result(0, ts, 1)
    else match ts[0]
      case Num(v) => Result(v, ts[1..], 0)
      case Ans => Result(env.ans, ts[1..], 0)
      case LPar =>
        var r := Parse(env, EXPR, ts[1..]);
        if r.rest != [] && r.rest[0] == RPar then r.(rest := r.rest[1..]) else r.(errs := r.errs + 1)
      case Add => Factor(env, ts[1..])
      case Sub => var r := Factor(env, ts[1..]); r.(val := Negated(r.val))
      case Not => var r := Factor(env, ts[1..]); r.(val := Complement(r.val))
      case _ => Result(0, ts, 1)
  }
}
