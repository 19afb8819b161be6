/**
 Why two passes suffice. Operands are rewritten between the passes, yet every line but one form keeps its
 length, so the addresses collected first are those at which the code is later emitted.
 */
module AsmPasses {
  import opened Machine
  import opened Asm

  /** Labels that are no operand keywords. */
  predicate Named(labels: seq<Entry>) {
    forall i :: 0 <= i < |labels| ==> labels[i].name.Id?
  }

  lemma {:induction false} AddrOf(labels: seq<Entry>, n: Name)
    ensures -0x8000 <= LabelAddr(labels, n) < 0x8000
    ensures Named(labels) && n.Kw? ==> LabelAddr(labels, n) == -1
    decreases |labels|
  {
    if labels != [] { AddrOf(labels[1..], n); }
  }

  /** A label in parentheses whose address is negative as a 16-bit `int` (and is not -1, "not found"). */
  predicate Negative(labels: seq<Entry>, a: Operand) { a.Paren? && LabelAddr(labels, a.n) < -1 }

  /** Resolving a label changes no decision the code generator takes, but for a negative address. */
  lemma ResolveKeeps(labels: seq<Entry>, a: Operand)
    requires Named(labels)
    ensures var r := Resolve(labels, a);
            && Reg8(r) == Reg8(a) && Reg16(r) == Reg16(a) && IndexPrefix(r) == IndexPrefix(a) && JpCond(r) == JpCond(a)
            && (r == None <==> a == None) && IsIndexed(r) == IsIndexed(a) && (r.Indexed? ==> r == a)
            && (forall w :: (r == Bare(Kw(w)) <==> a == Bare(Kw(w))) && (r == Paren(Kw(w)) <==> a == Paren(Kw(w))))
            && (if Negative(labels, a) then MemAddr(a) == 0 && MemAddr(r) < 0 && a.n.Id?
                else MemAddr(r) >= 0 <==> MemAddr(a) >= 0)
  {
    match a
    case Bare(n) => AddrOf(labels, n);
    case Paren(n) => AddrOf(labels, n);
    case _ =>
  }

  predicate SameShape(o: Out, o': Out) {
    o.Code? && o'.Code? ==> |o.bytes| == |o'.bytes|
  }

  lemma SameSizeLdReg(labels: seq<Entry>, a1: Operand, a2: Operand)
    requires Named(labels)
    ensures SameShape(GenLdReg(a1, a2), GenLdReg(Resolve(labels, a1), Resolve(labels, a2)))
  {
    ResolveKeeps(labels, a1);
    ResolveKeeps(labels, a2);
  }

  lemma SameSizeLd(labels: seq<Entry>, a1: Operand, a2: Operand)
    requires Named(labels) && !Negative(labels, a1) && !Negative(labels, a2)
    ensures SameShape(GenLd(a1, a2), GenLd(Resolve(labels, a1), Resolve(labels, a2)))
  {
    SameSizeLdReg(labels, a1, a2);
    ResolveKeeps(labels, a1);
    ResolveKeeps(labels, a2);
  }

  /** `LD A,(label)` is an absolute load first, but reads a negative address as an immediate in the second pass. */
  predicate Shifts(labels: seq<Entry>, op: Op, a1: Operand, a2: Operand) {
    op == LD && a1 == Bare(Kw(A)) && Negative(labels, a2)
  }

  function Shift(labels: seq<Entry>, op: Op, a1: Operand, a2: Operand): nat {
    if Shifts(labels, op, a1, a2) then 1 else 0
  }

  /** What is shorter in the second pass. */
  predicate Shrinks(o: Out, o': Out, d: nat) {
    o.Code? && o'.Code? ==> |o.bytes| == |o'.bytes| + d
  }

  /** A store to a negative address does not assemble in the second pass. */
  lemma NoNegativeStore(labels: seq<Entry>, a1: Operand, a2: Operand)
    requires Named(labels) && Negative(labels, a1)
    ensures GenLd(a1, a2).Err? || GenLd(Resolve(labels, a1), Resolve(labels, a2)).Err?
  {
    ResolveKeeps(labels, a1);
    ResolveKeeps(labels, a2);
    assert Resolve(labels, a1).ParenNum?;
  }

  lemma NegativeLoad(labels: seq<Entry>, a1: Operand, a2: Operand)
    requires Named(labels) && Negative(labels, a2) && !Negative(labels, a1)
    ensures Shrinks(GenLd(a1, a2), GenLd(Resolve(labels, a1), Resolve(labels, a2)), Shift(labels, LD, a1, a2))
  {
    ResolveKeeps(labels, a1);
    ResolveKeeps(labels, a2);
    assert Resolve(labels, a2).ParenNum?;
  }

  lemma SameSizeAdd(labels: seq<Entry>, a1: Operand, a2: Operand)
    requires Named(labels)
    ensures SameShape(GenAdd(a1, a2), GenAdd(Resolve(labels, a1), Resolve(labels, a2)))
  {
    ResolveKeeps(labels, a1);
    ResolveKeeps(labels, a2);
  }

  lemma SameSizeJp(labels: seq<Entry>, a1: Operand, a2: Operand)
    requires Named(labels)
    ensures SameShape(GenJp(a1, a2), GenJp(Resolve(labels, a1), Resolve(labels, a2)))
  {
    ResolveKeeps(labels, a1);
    ResolveKeeps(labels, a2);
  }

  lemma SameSizeCall(labels: seq<Entry>, a1: Operand, a2: Operand)
    requires Named(labels)
    ensures SameShape(GenCall(a1, a2), GenCall(Resolve(labels, a1), Resolve(labels, a2)))
  {
    ResolveKeeps(labels, a1);
    ResolveKeeps(labels, a2);
  }

  lemma SameSizeJr(at: u16, at': u16, labels: seq<Entry>, a1: Operand, a2: Operand)
    requires Named(labels)
    ensures SameShape(GenJr(false, at, a1, a2), GenJr(true, at', Resolve(labels, a1), Resolve(labels, a2)))
  {
    ResolveKeeps(labels, a1);
    ResolveKeeps(labels, a2);
  }

  lemma SameSizeAlu(labels: seq<Entry>, k: int, a: Operand)
    requires Named(labels) && 0 <= k < 8
    ensures SameShape(GenAlu(k, a), GenAlu(k, Resolve(labels, a)))
  {
    ResolveKeeps(labels, a);
  }

  lemma SameSizeCount(labels: seq<Entry>, a: Operand, base8: int, base16: int, idx: byte)
    requires Named(labels) && base8 in {4, 5} && base16 in {3, 0x0B}
    ensures SameShape(GenCount(a, base8, base16, idx), GenCount(Resolve(labels, a), base8, base16, idx))
  {
    ResolveKeeps(labels, a);
  }

  lemma SameSizeStack(labels: seq<Entry>, a: Operand, base: int, idx: byte)
    requires Named(labels) && base in {0xC5, 0xC1}
    ensures SameShape(GenStack(a, base, idx), GenStack(Resolve(labels, a), base, idx))
  {
    ResolveKeeps(labels, a);
  }

  /** A line that assembles in both passes has the same length in both, unless it is of the form above. */
  lemma SameSize(labels: seq<Entry>, op: Op, at: u16, at': u16, a1: Operand, a2: Operand)
    requires Named(labels)
    ensures Shrinks(Gen(false, at, op, a1, a2), Gen(true, at', op, Resolve(labels, a1), Resolve(labels, a2)),
                    Shift(labels, op, a1, a2))
  {
    match op
    case LD =>
      if Negative(labels, a1) { NoNegativeStore(labels, a1, a2); }
      else if Negative(labels, a2) { NegativeLoad(labels, a1, a2); }
      else { SameSizeLd(labels, a1, a2); }
    case ADD => SameSizeAdd(labels, a1, a2);
    case JP => SameSizeJp(labels, a1, a2);
    case CALL => SameSizeCall(labels, a1, a2);
    case JR => SameSizeJr(at, at', labels, a1, a2);
    case INC => SameSizeCount(labels, a1, 4, 3, 0x23);
    case DEC => SameSizeCount(labels, a1, 5, 0x0B, 0x2B);
    case ADC => SameSizeAlu(labels, 1, a2);
    case SUB => SameSizeAlu(labels, 2, a1);
    case SBC => SameSizeAlu(labels, 3, a2);
    case AND => SameSizeAlu(labels, 4, a1);
    case XOR => SameSizeAlu(labels, 5, a1);
    case OR => SameSizeAlu(labels, 6, a1);
    case CP => SameSizeAlu(labels, 7, a1);
    case PUSH => SameSizeStack(labels, a1, 0xC5, 0xE5);
    case POP => SameSizeStack(labels, a1, 0xC1, 0xE1);
    case _ =>
  }

  // ---- whole programs ------------------------------------------------------------------------------

  /** Both passes got through, and no label is an operand keyword. */
  predicate ErrorFree(lines: seq<Line>, base: u16) {
    var p := Pass0(lines, base, []);
    p.Passed? && Named(p.labels) && Pass1(lines, base, p.labels).Passed?
  }

  function ShiftOf(labels: seq<Entry>, l: Line): nat { if l.Ins? then Shift(labels, l.op, l.a1, l.a2) else 0 }

  /** How many lines lose a byte between the passes. */
  function Lost(lines: seq<Line>, labels: seq<Entry>): nat
    decreases |lines|
  {
    if lines == [] then 0 else ShiftOf(labels, lines[0]) + Lost(lines[1..], labels)
  }

  /** The first pass only adds labels at the end. */
  lemma {:induction false} LabelsGrow(lines: seq<Line>, pc: u16, labels: seq<Entry>)
    requires Pass0(lines, pc, labels).Passed?
    ensures labels <= Pass0(lines, pc, labels).labels
    decreases |lines|
  {
    if lines != [] {
      var p := Line0(lines[0], pc, labels);
      LabelsGrow(lines[1..], p.pc, p.labels);
    }
  }

  lemma AdvanceTwice(pc: u16, a: nat, b: nat)
    ensures Advance(Advance(pc, a), b) == Advance(pc, a + b)
  {
  }

  /** The bytes counted in the first pass. */
  function Counted(lines: seq<Line>, pc: u16, labels: seq<Entry>): nat
    requires Pass0(lines, pc, labels).Passed?
    decreases |lines|
  {
    if lines == [] then 0 else
      var p := Line0(lines[0], pc, labels);
      |p.bytes| + Counted(lines[1..], p.pc, p.labels)
  }

  lemma {:induction false} FirstCounts(lines: seq<Line>, pc: u16, labels: seq<Entry>)
    requires Pass0(lines, pc, labels).Passed?
    ensures Pass0(lines, pc, labels).pc == Advance(pc, Counted(lines, pc, labels))
    decreases |lines|
  {
    if lines != [] {
      var p := Line0(lines[0], pc, labels);
      FirstCounts(lines[1..], p.pc, p.labels);
      AdvanceTwice(pc, |p.bytes|, Counted(lines[1..], p.pc, p.labels));
    }
  }

  lemma LineApart(l: Line, pc0: u16, labels: seq<Entry>, pc1: u16, all: seq<Entry>)
    requires Named(all) && Line0(l, pc0, labels).Passed? && Line1(l, pc1, all).Passed?
    ensures |Line0(l, pc0, labels).bytes| == |Line1(l, pc1, all).bytes| + ShiftOf(all, l)
  {
    if l.Ins? { SameSize(all, l.op, pc0, pc1, l.a1, l.a2); }
  }

  /** The first pass counts the bytes the second emits and those lost in between. */
  lemma {:induction false} SizesApart(lines: seq<Line>, pc0: u16, labels: seq<Entry>, pc1: u16, all: seq<Entry>)
    requires Named(all) && Pass0(lines, pc0, labels).Passed? && Pass1(lines, pc1, all).Passed?
    ensures Counted(lines, pc0, labels) == |Pass1(lines, pc1, all).bytes| + Lost(lines, all)
    decreases |lines|
  {
    if lines != [] {
      var p, q := Line0(lines[0], pc0, labels), Line1(lines[0], pc1, all);
      LineApart(lines[0], pc0, labels, pc1, all);
      SizesApart(lines[1..], p.pc, p.labels, q.pc, all);
      assert |Pass1(lines, pc1, all).bytes| == |q.bytes| + |Pass1(lines[1..], q.pc, all).bytes|;
    }
  }

  lemma {:induction false} PrefixPasses(
      lines: seq<Line>, pc0: u16, labels: seq<Entry>, pc1: u16, all: seq<Entry>, k: nat)
    requires k <= |lines| && Pass0(lines, pc0, labels).Passed? && Pass1(lines, pc1, all).Passed?
    ensures Pass0(lines[..k], pc0, labels).Passed? && Pass1(lines[..k], pc1, all).Passed?
    decreases k
  {
    if k > 0 {
      var p, q := Line0(lines[0], pc0, labels), Line1(lines[0], pc1, all);
      assert lines[..k][0] == lines[0] && lines[..k][1..] == lines[1..][..k - 1];
      PrefixPasses(lines[1..], p.pc, p.labels, q.pc, all, k - 1);
    }
  }

  /** At every line the first pass's counter is ahead of the second's by the number of bytes lost so far. */
  lemma PassesApart(lines: seq<Line>, base: u16, all: seq<Entry>, k: nat)
    requires k <= |lines| && Named(all) && Pass0(lines, base, []).Passed? && Pass1(lines, base, all).Passed?
    ensures Pass0(lines[..k], base, []).Passed? && Pass1(lines[..k], base, all).Passed?
    ensures Pass0(lines[..k], base, []).pc == Advance(Pass1(lines[..k], base, all).pc, Lost(lines[..k], all))
  {
    PrefixPasses(lines, base, [], base, all, k);
    FirstCounts(lines[..k], base, []);
    SizesApart(lines[..k], base, [], base, all);
    CounterCounts(lines[..k], base, all);
    AdvanceTwice(base, |Pass1(lines[..k], base, all).bytes|, Lost(lines[..k], all));
  }

  lemma AheadIff(pc: u16, d: nat)
    ensures Advance(pc, d) == pc <==> d % 0x1_0000 == 0
    ensures Int16(Advance(pc, d)) == Int16(pc) <==> d % 0x1_0000 == 0
  {
    var q, r := d / 0x1_0000, d % 0x1_0000;
    assert pc + d == pc + r + q * 0x1_0000;
    assert (pc + d) % 0x1_0000 == (pc + r) % 0x1_0000;
  }

  predicate SameCounter(lines: seq<Line>, pc: u16, all: seq<Entry>, k: nat)
    requires k <= |lines|
  {
    var p, q := Pass0(lines[..k], pc, []), Pass1(lines[..k], pc, all);
    p.Passed? && q.Passed? && p.pc == q.pc
  }

  lemma {:induction false} LostMore(lines: seq<Line>, all: seq<Entry>, k: nat)
    requires k < |lines|
    ensures Lost(lines[..k + 1], all) == Lost(lines[..k], all) + ShiftOf(all, lines[k])
    decreases k
  {
    assert lines[..k + 1][0] == lines[0] && lines[..k + 1][1..] == lines[1..][..k];
    if k > 0 {
      assert lines[..k][0] == lines[0] && lines[..k][1..] == lines[1..][..k - 1];
      LostMore(lines[1..], all, k - 1);
    }
  }

  lemma CounterIff(lines: seq<Line>, base: u16, all: seq<Entry>, k: nat)
    requires k <= |lines| && Named(all) && Pass0(lines, base, []).Passed? && Pass1(lines, base, all).Passed?
    ensures SameCounter(lines, base, all, k) <==> Lost(lines[..k], all) % 0x1_0000 == 0
  {
    PassesApart(lines, base, all, k);
    AheadIff(Pass1(lines[..k], base, all).pc, Lost(lines[..k], all));
  }

  lemma LostTells(lines: seq<Line>, base: u16, all: seq<Entry>, j: nat)
    requires j < |lines| && Named(all) && Pass0(lines, base, []).Passed? && Pass1(lines, base, all).Passed?
    requires ShiftOf(all, lines[j]) != 0
    ensures !SameCounter(lines, base, all, j) || !SameCounter(lines, base, all, j + 1)
  {
    LostMore(lines, all, j);
    CounterIff(lines, base, all, j);
    CounterIff(lines, base, all, j + 1);
  }

  /** Both passes hold the same program counter at every line if and only if no line loses a byte. */
  lemma PassesAgree(lines: seq<Line>, base: u16)
    requires ErrorFree(lines, base)
    ensures var all := Pass0(lines, base, []).labels;
            (forall k :: 0 <= k <= |lines| ==> SameCounter(lines, base, all, k)) <==>
            (forall j :: 0 <= j < |lines| ==> ShiftOf(all, lines[j]) == 0)
  {
    var all := Pass0(lines, base, []).labels;
    if j :| 0 <= j < |lines| && ShiftOf(all, lines[j]) != 0 {
      LostTells(lines, base, all, j);
    } else {
      forall k | 0 <= k <= |lines| ensures SameCounter(lines, base, all, k) {
        NothingLost(lines[..k], all);
        CounterIff(lines, base, all, k);
      }
    }
  }

  lemma {:induction false} NothingLost(lines: seq<Line>, all: seq<Entry>)
    requires forall j :: 0 <= j < |lines| ==> ShiftOf(all, lines[j]) == 0
    ensures Lost(lines, all) == 0
    decreases |lines|
  {
    if lines != [] { NothingLost(lines[1..], all); }
  }

  /** The second pass's counter is the base plus what it has emitted. */
  lemma {:induction false} CounterCounts(lines: seq<Line>, pc: u16, labels: seq<Entry>)
    requires Pass1(lines, pc, labels).Passed?
    ensures Pass1(lines, pc, labels).pc == Advance(pc, |Pass1(lines, pc, labels).bytes|)
    decreases |lines|
  {
    if lines != [] {
      var p := Line1(lines[0], pc, labels);
      var rest := Pass1(lines[1..], p.pc, labels);
      CounterCounts(lines[1..], p.pc, labels);
      AdvanceTwice(pc, |p.bytes|, |rest.bytes|);
      assert |Pass1(lines, pc, labels).bytes| == |p.bytes| + |rest.bytes|;
    }
  }

  /** A label not yet in the table is entered with the counter at its first definition. */
  lemma {:induction false} LabelEntered(lines: seq<Line>, pc: u16, labels: seq<Entry>, k: nat)
    requires Pass0(lines, pc, labels).Passed? && k < |lines| && lines[k].Label?
    requires forall j :: 0 <= j < k ==> lines[j] != lines[k]
    requires forall i :: 0 <= i < |labels| ==> labels[i].name != lines[k].n
    ensures Pass0(lines[..k], pc, labels).Passed?
    ensures LabelAddr(Pass0(lines, pc, labels).labels, lines[k].n) == Int16(Pass0(lines[..k], pc, labels).pc)
    ensures Entry(lines[k].n, Pass0(lines[..k], pc, labels).pc) in Pass0(lines, pc, labels).labels
    decreases k
  {
    var l := lines[0];
    var p := Line0(l, pc, labels);
    if k == 0 {
      LabelsGrow(lines[1..], p.pc, p.labels);
      FoundAt(Pass0(lines, pc, labels).labels, l.n, |labels|);
      assert Pass0(lines, pc, labels).labels[|labels|] == Entry(l.n, pc);
      assert lines[..0] == [];
    } else {
      assert lines[..k][0] == l && lines[..k][1..] == lines[1..][..k - 1];
      LabelEntered(lines[1..], p.pc, p.labels, k - 1);
    }
  }

  lemma {:induction false} FoundAt(labels: seq<Entry>, n: Name, i: nat)
    requires i < |labels| && labels[i].name == n && forall j :: 0 <= j < i ==> labels[j].name != n
    ensures LabelAddr(labels, n) == Int16(labels[i].address)
    decreases i
  {
    if i > 0 { FoundAt(labels[1..], n, i - 1); }
  }

  /** Where the code of line `k` is emitted. */
  function Emitted(lines: seq<Line>, base: u16, all: seq<Entry>, k: nat): u16
    requires k <= |lines| && Pass1(lines[..k], base, all).Passed?
  {
    Advance(base, |Pass1(lines[..k], base, all).bytes|)
  }

  /** Line `k` is the first to define its label. */
  predicate Defines(lines: seq<Line>, k: nat) {
    k < |lines| && lines[k].Label? && forall j :: 0 <= j < k ==> lines[j] != lines[k]
  }

  lemma LabelStandsFor(lines: seq<Line>, base: u16, k: nat, all: seq<Entry>)
    requires ErrorFree(lines, base) && Defines(lines, k) && all == Pass0(lines, base, []).labels
    ensures Pass1(lines[..k], base, all).Passed?
    ensures LabelAddr(all, lines[k].n) == Int16(Advance(Emitted(lines, base, all, k), Lost(lines[..k], all)))
  {
    PassesApart(lines, base, all, k);
    CounterCounts(lines[..k], base, all);
    LabelEntered(lines, base, [], k);
  }

  /**
   Main result: the address a label stands for is the one at which the code after it is emitted, plus
   one for every line before it that lost a byte; so it is right if and only if none did.
   */
  lemma LabelsAreRight(lines: seq<Line>, base: u16, k: nat)
    requires ErrorFree(lines, base) && Defines(lines, k)
    ensures var all := Pass0(lines, base, []).labels;
            && Pass1(lines[..k], base, all).Passed?
            && var lost := Lost(lines[..k], all);
            && LabelAddr(all, lines[k].n) == Int16(Advance(Emitted(lines, base, all, k), lost))
            && (LabelAddr(all, lines[k].n) == Int16(Emitted(lines, base, all, k)) <==> lost % 0x1_0000 == 0)
  {
    var all := Pass0(lines, base, []).labels;
    LabelStandsFor(lines, base, k, all);
    AheadIff(Emitted(lines, base, all, k), Lost(lines[..k], all));
  }

  /** `LD A,(X)` with X at 0x8000, in the second pass. */
  lemma HighLoad(x: Name)
    requires x.Id?
    ensures Line1(Ins(LD, Bare(Kw(A)), Paren(x)), 0x7FFD, [Entry(x, 0x8000)]) ==
            Passed(0x7FFF, [Entry(x, 0x8000)], [0x3E, 0])
  {
    var all := [Entry(x, 0x8000)];
    AddrOf(all, Kw(A));
    assert LabelAddr(all, x) == -0x8000;
    assert GenLd(Bare(Kw(A)), ParenNum(-0x8000)) == Code([0x3E, 0]);
  }

  lemma FirstPassOf(x: Name)
    requires x.Id?
    ensures Pass0([Ins(LD, Bare(Kw(A)), Paren(x)), Label(x)], 0x7FFD, []) == Passed(0x8000, [Entry(x, 0x8000)], [])
  {
    var lines, all := [Ins(LD, Bare(Kw(A)), Paren(x)), Label(x)], [Entry(x, 0x8000)];
    assert lines[1..] == [Label(x)] && [Label(x)][1..] == [];
    assert Line0(lines[0], 0x7FFD, []) == Passed(0x8000, [], [0x3A, 0, 0]);
    assert Line0(Label(x), 0x8000, []) == Passed(0x8000, all, []);
    assert Pass0([Label(x)], 0x8000, []) == Pass0([], 0x8000, all);
  }

  lemma SecondPassOf(x: Name, all: seq<Entry>)
    requires x.Id? && all == [Entry(x, 0x8000)]
    ensures Pass1([Ins(LD, Bare(Kw(A)), Paren(x))], 0x7FFD, all) == Passed(0x7FFF, all, [0x3E, 0])
    ensures Pass1([Ins(LD, Bare(Kw(A)), Paren(x)), Label(x)], 0x7FFD, all).Passed?
  {
    var l := Ins(LD, Bare(Kw(A)), Paren(x));
    HighLoad(x);
    assert [l, Label(x)][1..] == [Label(x)] && [Label(x)][1..] == [] && [l][1..] == [];
    assert [0x3E, 0] + [] == [0x3E, 0];
    assert Pass1([Label(x)], 0x7FFF, all) == Passed(0x7FFF, all, []);
  }

  /** A program that loses a byte: its label stands for 0x8000, and its code is at 0x7FFF. */
  lemma LosesAByte(x: Name, lines: seq<Line>)
    requires x.Id? && lines == [Ins(LD, Bare(Kw(A)), Paren(x)), Label(x)]
    ensures ErrorFree(lines, 0x7FFD) && Defines(lines, 1)
    ensures var all := Pass0(lines, 0x7FFD, []).labels;
            && LabelAddr(all, x) == Int16(0x8000)
            && Pass1(lines[..1], 0x7FFD, all).Passed? && Emitted(lines, 0x7FFD, all, 1) == 0x7FFF
  {
    FirstPassOf(x);
    SecondPassOf(x, [Entry(x, 0x8000)]);
    assert lines[..1] == [lines[0]];
  }
}
