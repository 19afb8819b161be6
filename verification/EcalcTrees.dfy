/**
 Expression trees, printed with the parentheses the evaluator's grammar needs and any others, in any
 spacing: the evaluator returns each tree's value and uses up the line.
 */
module EcalcTrees {
  import opened Ecalc

  /** `Group` prints as redundant parentheses. */
  datatype Tree =
    | Lit(n: i16) | Last | Plus(t: Tree) | Minus(t: Tree) | Flip(t: Tree) | Group(t: Tree)
    | Bin(op: Token, l: Tree, r: Tree)

  /** Literals are written without a sign, and only operators join trees. */
  predicate Proper(t: Tree) {
    match t
    case Lit(n) => n >= 0
    case Last => true
    case Plus(a) => Proper(a)
    case Minus(a) => Proper(a)
    case Flip(a) => Proper(a)
    case Group(a) => Proper(a)
    case Bin(op, l, r) => OpLevel(op) < FACTOR && Proper(l) && Proper(r)
  }

  function Value(env: Env, t: Tree): i16 {
    match t
    case Lit(n) => n
    case Last => env.ans
    case Plus(a) => Value(env, a)
    case Minus(a) => Negated(Value(env, a))
    case Flip(a) => Complement(Value(env, a))
    case Group(a) => Value(env, a)
    case Bin(op, l, r) => env.apply(op, Value(env, l), Value(env, r))
  }

  /** How many divisions by zero the tree contains. */
  function ZeroDivisions(env: Env, t: Tree): nat {
    match t
    case Lit(_) => 0
    case Last => 0
    case Plus(a) => ZeroDivisions(env, a)
    case Minus(a) => ZeroDivisions(env, a)
    case Flip(a) => ZeroDivisions(env, a)
    case Group(a) => ZeroDivisions(env, a)
    case Bin(op, l, r) =>
      ZeroDivisions(env, l) + ZeroDivisions(env, r) + if op == Div && Value(env, r) == 0 then 1 else 0
  }

  function Level(t: Tree): nat { if t.Bin? then OpLevel(t.op) else FACTOR }

  /** Chained operators may have their own kind on the left. */
  function LeftLevel(k: nat): nat { if Chained(k) then k else k + 1 }

  /** Printed where the grammar expects `level`: parentheses only around an operator that binds less. */
  function Print(t: Tree, level: nat): (ts: seq<Token>)
    decreases t, if Level(t) < level then 1 else 0
  {
    if Level(t) < level then [LPar] + Print(t, EXPR) + [RPar]
    else match t
      case Lit(n) => [Num(n)]
      case Last => [Ans]
      case Plus(a) => [Add] + Print(a, FACTOR)
      case Minus(a) => [Sub] + Print(a, FACTOR)
      case Flip(a) => [Not] + Print(a, FACTOR)
      case Group(a) => [LPar] + Print(a, EXPR) + [RPar]
      case Bin(op, l, r) =>
        var k := OpLevel(op);
        Print(l, LeftLevel(k)) + [op] + Print(r, k + 1)
  }

  /** What follows does not continue an operand of `level`. */
  predicate Stops(level: nat, rest: seq<Token>) {
    rest != [] ==> OpLevel(rest[0]) < level || OpLevel(rest[0]) == FACTOR
  }

  predicate Reads(env: Env, level: nat, t: Tree, rest: seq<Token>)
    requires level <= FACTOR
  {
    Parse(env, level, Print(t, level) + rest) == Result(Value(env, t), rest, ZeroDivisions(env, t))
  }

  /** A chained level goes on with what follows from the tree's value. */
  predicate Chains(env: Env, level: nat, t: Tree, rest: seq<Token>)
    requires level < FACTOR
  {
    var m := More(env, level, Value(env, t), rest);
    Parse(env, level, Print(t, level) + rest) == m.(errs := ZeroDivisions(env, t) + m.errs)
  }

  /** Nesting of parentheses first, then levels from loose to tight. */
  function Phase(t: Tree, level: nat): nat { if Level(t) < level then 1 else 0 }

  lemma Regroup(a: seq<Token>, op: Token, b: seq<Token>, rest: seq<Token>)
    ensures a + [op] + b + rest == a + ([op] + (b + rest))
  {
  }

  lemma PrintBin(t: Tree, rest: seq<Token>)
    requires t.Bin?
    ensures var k := Level(t);
            Print(t, k) + rest == Print(t.l, LeftLevel(k)) + ([t.op] + (Print(t.r, k + 1) + rest))
  {
    var k := Level(t);
    Regroup(Print(t.l, LeftLevel(k)), t.op, Print(t.r, k + 1), rest);
    assert Print(t, k) == Print(t.l, LeftLevel(k)) + [t.op] + Print(t.r, k + 1);
  }

  /** The printed tree is read back at every level that may stop where it does. */
  lemma {:induction false} PrintedReads(env: Env, level: nat, t: Tree, rest: seq<Token>)
    requires level <= FACTOR && Proper(t) && Stops(level, rest)
    ensures Reads(env, level, t, rest)
    decreases t, Phase(t, level), FACTOR - level, 1
  {
    if level == FACTOR {
      FactorReads(env, t, rest);
    } else if Chained(level) {
      ChainReads(env, level, t, rest);
    } else if Level(t) == level {
      OnceReads(env, t, rest);
    } else {
      PrintedReads(env, level + 1, t, rest);
    }
  }

  lemma GroupTail(p: seq<Token>, rest: seq<Token>)
    ensures var ts := [LPar] + p + [RPar] + rest; ts[0] == LPar && ts[1..] == p + ([RPar] + rest)
  {
  }

  lemma GroupReads(env: Env, t: Tree, rest: seq<Token>)
    requires Reads(env, EXPR, t, [RPar] + rest)
    ensures Factor(env, [LPar] + Print(t, EXPR) + [RPar] + rest) == Result(Value(env, t), rest, ZeroDivisions(env, t))
  {
    var p := Print(t, EXPR);
    GroupTail(p, rest);
    assert ([RPar] + rest)[1..] == rest;
  }

  lemma UnaryTail(op: Token, p: seq<Token>, rest: seq<Token>)
    ensures var ts := [op] + p + rest; ts[0] == op && ts[1..] == p + rest
  {
  }

  lemma UnaryReads(env: Env, op: Token, t: Tree, rest: seq<Token>)
    requires Reads(env, FACTOR, t, rest) && op in {Add, Sub, Not}
    ensures var r := Result(Value(env, t), rest, ZeroDivisions(env, t));
            Factor(env, [op] + Print(t, FACTOR) + rest) ==
            if op == Add then r else r.(val := if op == Sub then Negated(r.val) else Complement(r.val))
  {
    var p := Print(t, FACTOR);
    UnaryTail(op, p, rest);
    assert Factor(env, p + rest) == Parse(env, FACTOR, p + rest);
  }

  lemma {:induction false} FactorReads(env: Env, t: Tree, rest: seq<Token>)
    requires Proper(t) && Stops(FACTOR, rest)
    ensures Reads(env, FACTOR, t, rest)
    decreases t, Phase(t, FACTOR), 0, 0
  {
    match t
    case Lit(n) => assert ([Num(n)] + rest)[1..] == rest;
    case Last => assert ([Ans] + rest)[1..] == rest;
    case Plus(a) =>
      FactorReads(env, a, rest);
      UnaryReads(env, Add, a, rest);
    case Minus(a) =>
      FactorReads(env, a, rest);
      UnaryReads(env, Sub, a, rest);
    case Flip(a) =>
      FactorReads(env, a, rest);
      UnaryReads(env, Not, a, rest);
    case Group(a) =>
      PrintedReads(env, EXPR, a, [RPar] + rest);
      GroupReads(env, a, rest);
    case Bin(_, _, _) =>
      PrintedReads(env, EXPR, t, [RPar] + rest);
      GroupReads(env, t, rest);
  }

  /** The one operator of an unchained level. */
  lemma {:induction false} OnceReads(env: Env, t: Tree, rest: seq<Token>)
    requires Proper(t) && t.Bin? && !Chained(Level(t)) && Stops(Level(t) + 1, rest)
    ensures Reads(env, Level(t), t, rest)
    decreases t, 0, FACTOR - Level(t), 0
  {
    var k := Level(t);
    var after := [t.op] + (Print(t.r, k + 1) + rest);
    PrintBin(t, rest);
    PrintedReads(env, k + 1, t.l, after);
    PrintedReads(env, k + 1, t.r, rest);
    OnceStep(env, t, rest, after);
  }

  lemma OnceStep(env: Env, t: Tree, rest: seq<Token>, after: seq<Token>)
    requires Proper(t) && t.Bin? && !Chained(Level(t)) && after == [t.op] + (Print(t.r, Level(t) + 1) + rest)
    requires Reads(env, Level(t) + 1, t.r, rest) && Reads(env, Level(t) + 1, t.l, after)
    ensures var e := Value(env, t);
            Parse(env, Level(t), Print(t.l, Level(t) + 1) + after) == Result(e, rest, ZeroDivisions(env, t))
  {
    assert after[1..] == Print(t.r, Level(t) + 1) + rest;
  }

  /** A chained level: with its own operator on top, or with a tree of a tighter level. */
  lemma {:induction false} ChainReads(env: Env, level: nat, t: Tree, rest: seq<Token>)
    requires level < FACTOR && Chained(level) && Proper(t) && Stops(level + 1, rest)
    ensures Chains(env, level, t, rest)
    decreases t, Phase(t, level), FACTOR - level, 0
  {
    if Level(t) != level {
      PrintedReads(env, level + 1, t, rest);
    } else {
      var after := [t.op] + (Print(t.r, level + 1) + rest);
      PrintBin(t, rest);
      ChainReads(env, level, t.l, after);
      PrintedReads(env, level + 1, t.r, rest);
      ChainStep(env, t, rest, after);
    }
  }

  lemma ChainStep(env: Env, t: Tree, rest: seq<Token>, after: seq<Token>)
    requires Proper(t) && t.Bin? && Chained(Level(t)) && after == [t.op] + (Print(t.r, Level(t) + 1) + rest)
    requires Reads(env, Level(t) + 1, t.r, rest)
    ensures var e := More(env, Level(t), Value(env, t), rest);
            More(env, Level(t), Value(env, t.l), after) ==
            e.(errs := ZeroDivisions(env, t.r) + Complaint(t.op, Value(env, t.r)) + e.errs)
  {
    assert after[1..] == Print(t.r, Level(t) + 1) + rest;
  }

  /** After a complete `|`, `^` or `&`, a second operator of that kind is left unread, at every level above. */
  lemma {:induction false} UnchainedStops(env: Env, level: nat, t: Tree, op: Token, more: seq<Token>)
    requires Proper(t) && t.Bin? && !Chained(Level(t)) && OpLevel(op) == Level(t) && level <= Level(t)
    ensures Parse(env, level, Print(t, Level(t)) + ([op] + more)) ==
            Result(Value(env, t), [op] + more, ZeroDivisions(env, t))
    decreases Level(t) - level
  {
    if level == Level(t) { OnceReads(env, t, [op] + more); } else { UnchainedStops(env, level + 1, t, op, more); }
  }
}
