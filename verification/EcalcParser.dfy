/** The calculator as it runs: a pointer into the line, one token of lookahead, mutually recursive parsers. */
module EcalcParser {
  import opened Machine
  import opened Ecalc

  /** Multiplying in 16 bits at every step comes to the exact power, reduced once. */
  method IntPower(x: i16, y: i16) returns (r: i16)
    ensures r == IPow(x, y)
  {
    if y < 0 { return 0; }
    r := 1;
    var k: nat := 0;
    while k < y
      invariant k <= y && r == S16(Power(x, k))
    {
      ProductsWrap(Power(x, k), x);
      r := S16(r * x);
      k := k + 1;
    }
  }

  /** One turn of a chained level's loop. */
  lemma MoreOnce(env: Ecalc.Env, level: nat, val: i16, ts: seq<Token>, y: Result, v: i16)
    requires level < FACTOR && Chained(level) && ts != [] && OpLevel(ts[0]) == level
    requires y == Parse(env, level + 1, ts[1..]) && v == env.apply(ts[0], val, y.val)
    ensures var m := More(env, level, v, y.rest);
            More(env, level, val, ts) == m.(errs := y.errs + Complaint(ts[0], y.val) + m.errs)
  {
  }

  /** A level whose operator does not follow. */
  lemma ParseOnly(env: Ecalc.Env, level: nat, ts: seq<Token>, l: Result)
    requires level < FACTOR && l == Parse(env, level + 1, ts)
    requires l.rest != [] ==> OpLevel(l.rest[0]) != level
    ensures Parse(env, level, ts) == l
  {
  }

  /** An unchained level with its one operator. */
  lemma ParseOnce(env: Ecalc.Env, level: nat, ts: seq<Token>, l: Result, y: Result)
    requires level < FACTOR && !Chained(level) && l == Parse(env, level + 1, ts)
    requires l.rest != [] && OpLevel(l.rest[0]) == level && y == Parse(env, level + 1, l.rest[1..])
    ensures Parse(env, level, ts) ==
            Result(env.apply(l.rest[0], l.val, y.val), y.rest, l.errs + y.errs + Complaint(l.rest[0], y.val))
  {
  }

  lemma LexSkip(text: string, i: nat)
    requires i < |text| && text[i] == ' '
    ensures Lex(text[i..]) == Lex(text[i + 1..])
  {
    assert text[i..][0] == ' ' && text[i..][1..] == text[i + 1..];
  }

  /** What a parenthesis makes of the expression in it. */
  lemma GroupIs(env: Env, ts: seq<Token>, r: Result)
    requires ts != [] && ts[0] == LPar && r == Parse(env, EXPR, ts[1..])
    ensures Factor(env, ts)
         == if r.rest != [] && r.rest[0] == RPar then r.(rest := r.rest[1..]) else r.(errs := r.errs + 1)
  {
  }

  /** What a sign makes of the factor after it. */
  lemma SignedIs(env: Env, ts: seq<Token>, op: Token, r: Result)
    requires ts != [] && ts[0] == op && op in {Add, Sub, Not} && r == Factor(env, ts[1..])
    ensures Factor(env, ts)
         == r.(val := if op == Sub then Negated(r.val) else if op == Not then Complement(r.val) else r.val)
  {
  }

  class Calculator {
    var text: string
    var src: nat
    var ended: bool
    var token: Token
    var env: Env
    var errors: nat

    /** What a division by zero leaves behind. */
    const byZero: i16

    /** The current token and those still to be read. */
    ghost var ahead: seq<Token>

    /** The pointer has not passed the terminating NUL, and a line that has ended stays so. */
    ghost predicate Valid()
      reads this
    {
      && Same(env, Ecalc.Calculator(env.ans, byZero))
      && src <= |text| && (ended ==> src == |text|)
      && ahead == (if ended then [] else [token] + Lex(text[src..]))
    }

    constructor (byZero: i16)
      ensures Valid() && ended && errors == 0 && env.ans == 0 && this.byZero == byZero
    {
      this.byZero := byZero;
      text, src, ended, token, errors := "", 0, true, Bad, 0;
      ahead, env := [], Ecalc.Calculator(0, byZero);
    }

    method SkipSpaces()
      requires src <= |text|
      modifies this`src
      ensures src <= |text| && Lex(text[src..]) == Lex(text[old(src)..])
      ensures src < |text| ==> text[src] != ' '
    {
      while src < |text| && text[src] == ' '
        invariant src <= |text| && Lex(text[src..]) == Lex(text[old(src)..])
        decreases |text| - src
      {
        LexSkip(text, src);
        src := src + 1;
      }
    }

    method ReadNumber()
      requires src < |text| && IsDigit(text[src])
      modifies this`src, this`token
      ensures old(src) < src <= |text| && [token] + Lex(text[src..]) == Lex(text[old(src)..])
    {
      ghost var s := text[src..];
      var from := src;
      while src < |text| && IsDigit(text[src])
        invariant from <= src <= |text|
        invariant DigitRun(s) == src - from + DigitRun(text[src..])
        decreases |text| - src
      {
        assert text[src..][1..] == text[src + 1..];
        src := src + 1;
      }
      assert text[from..src] == s[..DigitRun(s)] && text[src..] == s[DigitRun(s)..];
      token := Num(S16(Decimal(text[from..src])));
      assert s[0] == text[from];
    }

    method ReadSymbol()
      requires src < |text| && text[src] != ' ' && !IsDigit(text[src])
      modifies this`src, this`token
      ensures old(src) < src <= |text| && [token] + Lex(text[src..]) == Lex(text[old(src)..])
    {
      ghost var s := text[src..];
      assert s[0] == text[src] && s[1..] == text[src + 1..];
      assert AtAns(s) <==> src + 3 <= |text| && text[src..src + 3] == "ans" by {
        if src + 3 <= |text| { assert s[..3] == text[src..src + 3]; }
      }
      if src + 3 <= |text| && text[src..src + 3] == "ans" {
        assert s[3..] == text[src + 3..];
        token, src := Ans, src + 3;
      } else {
        token, src := Symbol(text[src]), src + 1;
      }
    }

    /** The next token becomes the current one; at the end of the line the pointer stays. */
    method NextToken()
      requires Valid()
      modifies this`src, this`token, this`ended, this`ahead
      ensures Valid() && ahead == Lex(text[old(src)..]) && (ahead != [] ==> !ended && token == ahead[0])
      ensures !old(ended) ==> ahead == old(ahead)[1..]
    {
      SkipSpaces();
      ended := src == |text|;
      if !ended {
        if IsDigit(text[src]) { ReadNumber(); } else { ReadSymbol(); }
      }
      ahead := if ended then [] else [token] + Lex(text[src..]);
    }

    /** A binary operator at work; only a division can complain. */
    method Operate(op: Token, x: i16, y: i16) returns (val: i16)
      requires Valid() && OpLevel(op) < FACTOR
      modifies this`errors
      ensures val == env.apply(op, x, y) && errors == old(errors) + Complaint(op, y)
    {
      if op == Div && y == 0 { errors := errors + 1; }
      match op {
        case Add => val := S16(x + y);
        case Sub => val := S16(x - y);
        case Mul => val := S16(x * y);
        case Div => val := Quotient(byZero, x, y);
        case Exp => val := IntPower(x, y);
        case And => val := OnBits(Both, x, y);
        case Or => val := OnBits(Either, x, y);
        case Xor => val := OnBits(Unlike, x, y);
      }
    }

    /** The closing parenthesis, or one error more. */
    method CloseGroup()
      requires Valid()
      modifies this`src, this`token, this`ended, this`ahead, this`errors
      ensures Valid()
      ensures var ts := old(ahead);
              if ts != [] && ts[0] == RPar then ahead == ts[1..] && errors == old(errors)
              else ahead == ts && errors == old(errors) + 1
    {
      if !ended && token == RPar { NextToken(); } else { errors := errors + 1; }
    }

    method ParseGroup() returns (val: i16)
      requires Valid() && !ended && token == LPar
      modifies this`src, this`token, this`ended, this`ahead, this`errors
      ensures Valid() && errors >= old(errors)
      ensures Result(val, ahead, errors - old(errors)) == Factor(env, old(ahead))
      decreases |ahead|, 0, 0
    {
      NextToken();
      val := ParseExpr();
      ghost var inner := Result(val, ahead, errors - old(errors));
      CloseGroup();
      GroupIs(env, old(ahead), inner);
    }

    /** A sign or a complement, and the factor it applies to. */
    method ParseSigned() returns (val: i16)
      requires Valid() && !ended && (token == Add || token == Sub || token == Not)
      modifies this`src, this`token, this`ended, this`ahead, this`errors
      ensures Valid() && errors >= old(errors)
      ensures Result(val, ahead, errors - old(errors)) == Factor(env, old(ahead))
      decreases |ahead|, 0, 0
    {
      var op := token;
      assert ahead[0] == op;
      NextToken();
      val := ParseFactor();
      SignedIs(env, old(ahead), op, Result(val, ahead, errors - old(errors)));
      if op == Sub { val := Negated(val); } else if op == Not { val := Complement(val); }
    }

    method ParseFactor() returns (val: i16)
      requires Valid()
      modifies this`src, this`token, this`ended, this`ahead, this`errors
      ensures Valid() && errors >= old(errors)
      ensures Result(val, ahead, errors - old(errors)) == Factor(env, old(ahead))
      decreases |ahead|, 0, 1
    {
      val := 0;
      if ended {
        errors := errors + 1;
      } else if token.Num? {
        val := token.v;
        NextToken();
      } else if token == LPar {
        val := ParseGroup();
      } else if token == Add || token == Sub || token == Not {
        val := ParseSigned();
      } else if token == Ans {
        NextToken();
        val := env.ans;
      } else {
        errors := errors + 1;
      }
    }

    /** One turn of the loop below. */
    method ExponentStep(val: i16) returns (v: i16)
      requires Valid() && !ended && token == Exp
      modifies this`src, this`token, this`ended, this`ahead, this`errors
      ensures Valid() && errors >= old(errors) && |ahead| < |old(ahead)|
      ensures var m := More(env, EXPONENT, v, ahead);
              More(env, EXPONENT, val, old(ahead)) == m.(errs := errors - old(errors) + m.errs)
      decreases |ahead|, 0
    {
      NextToken();
      var rs := ParseFactor();
      ghost var y := Result(rs, ahead, errors - old(errors));
      v := Operate(Exp, val, rs);
      MoreOnce(env, EXPONENT, val, old(ahead), y, v);
    }

    method ParseExponent() returns (val: i16)
      requires Valid()
      modifies this`src, this`token, this`ended, this`ahead, this`errors
      ensures Valid() && errors >= old(errors)
      ensures Result(val, ahead, errors - old(errors)) == Parse(env, EXPONENT, old(ahead))
      decreases |ahead|, 1
    {
      val := ParseFactor();
      while !ended && token == Exp
        invariant Valid() && errors >= old(errors) && |ahead| <= |old(ahead)|
        invariant var m := More(env, EXPONENT, val, ahead);
                  m.(errs := errors - old(errors) + m.errs) == Parse(env, EXPONENT, old(ahead))
        decreases |ahead|
      {
        val := ExponentStep(val);
      }
    }

    /** One turn of the loop below. */
    method TermStep(val: i16) returns (v: i16)
      requires Valid() && !ended && (token == Mul || token == Div)
      modifies this`src, this`token, this`ended, this`ahead, this`errors
      ensures Valid() && errors >= old(errors) && |ahead| < |old(ahead)|
      ensures var m := More(env, TERM, v, ahead);
              More(env, TERM, val, old(ahead)) == m.(errs := errors - old(errors) + m.errs)
      decreases |ahead|, 0
    {
      var op := token;
      assert ahead[0] == op;
      NextToken();
      ghost var ts := ahead;
      var rs := ParseExponent();
      ghost var y := Result(rs, ahead, errors - old(errors));
      assert y == Parse(env, TERM + 1, ts) && ts == old(ahead)[1..];
      v := Operate(op, val, rs);
      MoreOnce(env, TERM, val, old(ahead), y, v);
    }

    method ParseTerm() returns (val: i16)
      requires Valid()
      modifies this`src, this`token, this`ended, this`ahead, this`errors
      ensures Valid() && errors >= old(errors)
      ensures Result(val, ahead, errors - old(errors)) == Parse(env, TERM, old(ahead))
      decreases |ahead|, 2
    {
      val := ParseExponent();
      while !ended && (token == Mul || token == Div)
        invariant Valid() && errors >= old(errors) && |ahead| <= |old(ahead)|
        invariant var m := More(env, TERM, val, ahead);
                  m.(errs := errors - old(errors) + m.errs) == Parse(env, TERM, old(ahead))
        decreases |ahead|
      {
        val := TermStep(val);
      }
    }

    method ParseAnd() returns (val: i16)
      requires Valid()
      modifies this`src, this`token, this`ended, this`ahead, this`errors
      ensures Valid() && errors >= old(errors)
      ensures Result(val, ahead, errors - old(errors)) == Parse(env, AND, old(ahead))
      decreases |ahead|, 3
    {
      val := ParseTerm();
      ghost var l := Result(val, ahead, errors - old(errors));
      if !ended && token == And {
        ghost var count := errors;
        NextToken();
        var rs := ParseTerm();
        ParseOnce(env, AND, old(ahead), l, Result(rs, ahead, errors - count));
        val := Operate(And, val, rs);
      } else {
        ParseOnly(env, AND, old(ahead), l);
      }
    }

    method ParseXor() returns (val: i16)
      requires Valid()
      modifies this`src, this`token, this`ended, this`ahead, this`errors
      ensures Valid() && errors >= old(errors)
      ensures Result(val, ahead, errors - old(errors)) == Parse(env, XOR, old(ahead))
      decreases |ahead|, 4
    {
      val := ParseAnd();
      ghost var l := Result(val, ahead, errors - old(errors));
      if !ended && token == Xor {
        ghost var count := errors;
        NextToken();
        var rs := ParseAnd();
        ParseOnce(env, XOR, old(ahead), l, Result(rs, ahead, errors - count));
        val := Operate(Xor, val, rs);
      } else {
        ParseOnly(env, XOR, old(ahead), l);
      }
    }

    method ParseOr() returns (val: i16)
      requires Valid()
      modifies this`src, this`token, this`ended, this`ahead, this`errors
      ensures Valid() && errors >= old(errors)
      ensures Result(val, ahead, errors - old(errors)) == Parse(env, OR, old(ahead))
      decreases |ahead|, 5
    {
      val := ParseXor();
      ghost var l := Result(val, ahead, errors - old(errors));
      if !ended && token == Or {
        ghost var count := errors;
        NextToken();
        var rs := ParseXor();
        ParseOnce(env, OR, old(ahead), l, Result(rs, ahead, errors - count));
        val := Operate(Or, val, rs);
      } else {
        ParseOnly(env, OR, old(ahead), l);
      }
    }

    /** One turn of the loop below. */
    method ExprStep(val: i16) returns (v: i16)
      requires Valid() && !ended && (token == Add || token == Sub)
      modifies this`src, this`token, this`ended, this`ahead, this`errors
      ensures Valid() && errors >= old(errors) && |ahead| < |old(ahead)|
      ensures var m := More(env, EXPR, v, ahead);
              More(env, EXPR, val, old(ahead)) == m.(errs := errors - old(errors) + m.errs)
      decreases |ahead|, 0
    {
      var op := token;
      assert ahead[0] == op;
      NextToken();
      ghost var ts := ahead;
      var rs := ParseOr();
      ghost var y := Result(rs, ahead, errors - old(errors));
      assert y == Parse(env, EXPR + 1, ts) && ts == old(ahead)[1..];
      v := Operate(op, val, rs);
      MoreOnce(env, EXPR, val, old(ahead), y, v);
    }

    method ParseExpr() returns (val: i16)
      requires Valid()
      modifies this`src, this`token, this`ended, this`ahead, this`errors
      ensures Valid() && errors >= old(errors)
      ensures Result(val, ahead, errors - old(errors)) == Parse(env, EXPR, old(ahead))
      decreases |ahead|, 6
    {
      val := ParseOr();
      while !ended && (token == Add || token == Sub)
        invariant Valid() && errors >= old(errors) && |ahead| <= |old(ahead)|
        invariant var m := More(env, EXPR, val, ahead);
                  m.(errs := errors - old(errors) + m.errs) == Parse(env, EXPR, old(ahead))
        decreases |ahead|
      {
        val := ExprStep(val);
      }
    }

    /** One line of the main loop: its value is kept as the next line's `ans`. */
    method Evaluate(line: string)
      requires Valid()
      modifies this
      ensures Valid() && text == line && errors >= old(errors) && env == old(env).(ans := env.ans)
      ensures Result(env.ans, ahead, errors - old(errors)) == Parse(old(env), EXPR, Lex(line))
    {
      text, src, ended := line, 0, false;
      ahead := [token] + Lex(text[src..]);
      NextToken();
      assert text[0..] == line;
      var val := ParseExpr();
      env := env.(ans := val);
    }
  }
}
