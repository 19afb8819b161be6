/** Lines of text: printed tokens, in any spacing, are read back as themselves. */
module EcalcLines {
  import opened Ecalc
  import opened EcalcTrees

  function Digit(n: nat): (c: char)
    requires n < 10
    ensures IsDigit(c) && DigitValue(c) == n
  {
    '0' + n as char
  }

  function Digits(n: nat): (s: string)
    ensures s != [] && forall j :: 0 <= j < |s| ==> IsDigit(s[j])
  {
    if n < 10 then [Digit(n)] else Digits(n / 10) + [Digit(n % 10)]
  }

  lemma {:induction false} DigitsRead(n: nat)
    ensures Decimal(Digits(n)) == n
  {
    if n < 10 {
      assert [Digit(n)][..0] == [];
    } else {
      DigitsRead(n / 10);
      assert (Digits(n / 10) + [Digit(n % 10)])[..|Digits(n / 10)|] == Digits(n / 10);
    }
  }

  lemma {:induction false} RunEnds(s: string, r: string)
    requires (forall j :: 0 <= j < |s| ==> IsDigit(s[j])) && (r != [] ==> !IsDigit(r[0]))
    ensures DigitRun(s + r) == |s|
  {
    if s != [] {
      RunEnds(s[1..], r);
      assert (s + r)[1..] == s[1..] + r;
    } else {
      assert s + r == r;
    }
  }

  /** A token that can be written. */
  predicate Plain(t: Token) { t != Bad && (t.Num? ==> t.v >= 0) }

  function SymbolChar(t: Token): (c: char)
    requires t != Bad && t != Ans && !t.Num?
    ensures Symbol(c) == t && c != ' ' && !IsDigit(c)
  {
    match t
    case LPar => '(' case RPar => ')' case Add => '+' case Sub => '-' case Mul => '*' case Div => '/'
    case Exp => 'e' case And => '&' case Or => '|' case Xor => '^' case Not => '~'
  }

  function Text(t: Token): (s: string)
    requires Plain(t)
    ensures s != [] && s[0] != ' ' && (IsDigit(s[0]) <==> t.Num?)
  {
    if t.Num? then Digits(t.v) else if t == Ans then "ans" else [SymbolChar(t)]
  }

  function Spaces(n: nat): string { if n == 0 then "" else " " + Spaces(n - 1) }

  /** The tokens in text, with `gaps[i]` spaces before the i-th and the last gap at the end. */
  function Render(ts: seq<Token>, gaps: seq<nat>): string
    requires |gaps| == |ts| + 1 && forall t :: t in ts ==> Plain(t)
  {
    if ts == [] then Spaces(gaps[0]) else Spaces(gaps[0]) + (Text(ts[0]) + Render(ts[1..], gaps[1..]))
  }

  /** Numbers next to each other would run together. */
  predicate Apart(ts: seq<Token>) {
    forall i :: 0 < i < |ts| ==> !(ts[i - 1].Num? && ts[i].Num?)
  }

  lemma SpaceFirst(a: string, s: string)
    ensures var t := " " + a + s; t[0] == ' ' && t[1..] == a + s
  {
  }

  lemma {:induction false} LexSpaces(n: nat, s: string)
    ensures Lex(Spaces(n) + s) == Lex(s)
  {
    if n == 0 {
      assert Spaces(n) + s == s;
    } else {
      LexSpaces(n - 1, s);
      SpaceFirst(Spaces(n - 1), s);
      assert Spaces(n) == " " + Spaces(n - 1);
    }
  }

  lemma Halves(d: string, r: string)
    ensures (d + r)[..|d|] == d && (d + r)[|d|..] == r && (d != [] ==> (d + r)[0] == d[0])
  {
  }

  lemma LexDigits(s: string, n: nat, d: string, r: string)
    requires s != [] && IsDigit(s[0]) && n == DigitRun(s) && d == s[..n] && r == s[n..]
    ensures Lex(s) == [Num(S16(Decimal(d)))] + Lex(r)
  {
  }

  lemma LexNumber(d: string, v: i16, r: string)
    requires d != [] && (forall j :: 0 <= j < |d| ==> IsDigit(d[j])) && Decimal(d) == v
    requires r != [] ==> !IsDigit(r[0])
    ensures Lex(d + r) == [Num(v)] + Lex(r)
  {
    var s := d + r;
    RunEnds(d, r);
    Halves(d, r);
    LexDigits(s, |d|, d, r);
    assert S16(v) == v;
  }

  lemma LexAns(r: string)
    ensures Lex("ans" + r) == [Ans] + Lex(r)
  {
    var s := "ans" + r;
    assert s[..3] == "ans" && s[3..] == r;
  }

  lemma NotAns(s: string)
    requires s != [] && s[0] != 'a'
    ensures !AtAns(s)
  {
    if |s| >= 3 { assert s[..3][0] == s[0] && "ans"[0] == 'a'; }
  }

  lemma LexSymbol(c: char, r: string)
    requires Symbol(c) != Bad
    ensures Lex([c] + r) == [Symbol(c)] + Lex(r)
  {
    var s := [c] + r;
    assert s[1..] == r && s[0] == c;
    assert c != ' ' && !IsDigit(c) && c != 'a';
    NotAns(s);
  }

  lemma LexText(t: Token, r: string)
    requires Plain(t) && (t.Num? && r != [] ==> !IsDigit(r[0]))
    ensures Lex(Text(t) + r) == [t] + Lex(r)
  {
    if t.Num? {
      DigitsRead(t.v);
      LexNumber(Digits(t.v), t.v, r);
    } else if t == Ans {
      LexAns(r);
    } else {
      LexSymbol(SymbolChar(t), r);
    }
  }

  /** What comes after a token starts with a digit only if the next token is a number. */
  lemma StartsApart(ts: seq<Token>, gaps: seq<nat>)
    requires |gaps| == |ts| + 1 && (forall t :: t in ts ==> Plain(t)) && (ts != [] ==> !ts[0].Num?)
    ensures var r := Render(ts, gaps); r != [] ==> !IsDigit(r[0])
  {
    if ts != [] {
      var tail := Text(ts[0]) + Render(ts[1..], gaps[1..]);
      assert tail[0] == Text(ts[0])[0];
      if gaps[0] == 0 { assert Spaces(gaps[0]) + tail == tail; }
    }
  }

  /** One token more in front of a text that is read back. */
  lemma LexOneMore(t: Token, gap: nat, r: string, ts: seq<Token>)
    requires Plain(t) && (t.Num? && r != [] ==> !IsDigit(r[0])) && Lex(r) == ts
    ensures Lex(Spaces(gap) + (Text(t) + r)) == [t] + ts
  {
    LexSpaces(gap, Text(t) + r);
    LexText(t, r);
  }

  /** Any spacing of written tokens is read back as those tokens. */
  lemma {:induction false} LexRender(ts: seq<Token>, gaps: seq<nat>)
    requires |gaps| == |ts| + 1 && (forall t :: t in ts ==> Plain(t)) && Apart(ts)
    ensures Lex(Render(ts, gaps)) == ts
    decreases |ts|
  {
    if ts == [] {
      LexSpaces(gaps[0], "");
      assert Spaces(gaps[0]) + "" == Spaces(gaps[0]);
    } else {
      if ts[0].Num? { StartsApart(ts[1..], gaps[1..]); }
      LexRender(ts[1..], gaps[1..]);
      LexOneMore(ts[0], gaps[0], Render(ts[1..], gaps[1..]), ts[1..]);
    }
  }

  // ---- printed trees ---------------------------------------------------------------------------------

  predicate Writable(ts: seq<Token>) { Apart(ts) && forall t :: t in ts ==> Plain(t) }

  lemma WritableJoin(a: seq<Token>, op: Token, b: seq<Token>)
    requires Writable(a) && Writable(b) && Plain(op) && !op.Num?
    ensures Writable(a + [op] + b)
  {
    var ts := a + [op] + b;
    forall i | 0 < i < |ts| ensures !(ts[i - 1].Num? && ts[i].Num?) {
      if i < |a| { assert ts[i - 1] == a[i - 1] && ts[i] == a[i]; }
      if i > |a| + 1 { assert ts[i - 1] == b[i - 2 - |a|] && ts[i] == b[i - 1 - |a|]; }
    }
  }

  lemma WritableGroup(a: seq<Token>)
    requires Writable(a)
    ensures Writable([LPar] + a + [RPar])
  {
    WritableJoin([], LPar, a);
    WritableJoin([LPar] + a, RPar, []);
    assert [] + [LPar] + a == [LPar] + a && [LPar] + a + [RPar] + [] == [LPar] + a + [RPar];
  }

  lemma {:induction false} PrintWritable(t: Tree, level: nat)
    requires Proper(t)
    ensures Writable(Print(t, level))
    decreases t, Phase(t, level)
  {
    if Level(t) < level {
      PrintWritable(t, EXPR);
      WritableGroup(Print(t, EXPR));
    } else {
      match t
      case Lit(n) =>
      case Last =>
      case Plus(a) => PrintWritable(a, FACTOR); WritableUnary(Add, Print(a, FACTOR));
      case Minus(a) => PrintWritable(a, FACTOR); WritableUnary(Sub, Print(a, FACTOR));
      case Flip(a) => PrintWritable(a, FACTOR); WritableUnary(Not, Print(a, FACTOR));
      case Group(a) => PrintWritable(a, EXPR); WritableGroup(Print(a, EXPR));
      case Bin(op, l, r) =>
        var k := OpLevel(op);
        PrintWritable(l, LeftLevel(k));
        PrintWritable(r, k + 1);
        WritableJoin(Print(l, LeftLevel(k)), op, Print(r, k + 1));
    }
  }

  lemma WritableUnary(op: Token, a: seq<Token>)
    requires Writable(a) && Plain(op) && !op.Num?
    ensures Writable([op] + a)
  {
    WritableJoin([], op, a);
    assert [] + [op] + a == [op] + a;
  }

  /** Main result: the line is read to its end, and gives the tree's value. */
  lemma LineEvaluates(env: Env, t: Tree, gaps: seq<nat>)
    requires Proper(t) && |gaps| == |Print(t, EXPR)| + 1
    ensures Writable(Print(t, EXPR))
    ensures Parse(env, EXPR, Lex(Render(Print(t, EXPR), gaps))) == Result(Value(env, t), [], ZeroDivisions(env, t))
  {
    PrintWritable(t, EXPR);
    LexRender(Print(t, EXPR), gaps);
    PrintedReads(env, EXPR, t, []);
    assert Print(t, EXPR) + [] == Print(t, EXPR);
  }
}
