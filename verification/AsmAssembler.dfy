/** The assembler's own loops: bytes emitted one by one, the label search, and two passes over the file. */
module AsmAssembler {
  import opened Machine
  import opened Asm

  /** What a line that fails has already written: the opcode of a relative jump that turns out too far. */
  function Partial(second: bool, at: u16, op: Op, a1: Operand, a2: Operand): seq<byte> {
    if !second then []
    else if op == DJNZ then [0x10]
    else if op != JR then []
    else if a2 != None then if JrCond(a1) == -1 then [] else [0x20 + 8 * JrCond(a1)]
    else if a1 != None then [0x18]
    else []
  }

  /** The labels of the file, up to the first line that fails in the first pass. */
  function First(lines: seq<Line>, pc: u16, labels: seq<Entry>): seq<Entry>
    decreases |lines|
  {
    if lines == [] then labels
    else match Line0(lines[0], pc, labels)
      case Failed => labels
      case Passed(pc', labels', _) => First(lines[1..], pc', labels')
  }

  function Written(l: Line, pc: u16, labels: seq<Entry>): seq<byte> {
    match l
    case Ins(op, a1, a2) => Partial(true, pc, op, Resolve(labels, a1), Resolve(labels, a2))
    case _ => []
  }

  /** The output of the second pass, which also ends at the first error. */
  function Second(lines: seq<Line>, pc: u16, labels: seq<Entry>): seq<byte>
    decreases |lines|
  {
    if lines == [] then []
    else match Line1(lines[0], pc, labels)
      case Failed => Written(lines[0], pc, labels)
      case Passed(pc', _, b) => b + Second(lines[1..], pc', labels)
  }

  /** Without an error these are the two passes. */
  lemma {:induction false} FirstPasses(lines: seq<Line>, pc: u16, labels: seq<Entry>)
    requires Pass0(lines, pc, labels).Passed?
    ensures First(lines, pc, labels) == Pass0(lines, pc, labels).labels
    decreases |lines|
  {
    if lines != [] {
      var p := Line0(lines[0], pc, labels);
      FirstPasses(lines[1..], p.pc, p.labels);
    }
  }

  lemma {:induction false} SecondPasses(lines: seq<Line>, pc: u16, labels: seq<Entry>)
    requires Pass1(lines, pc, labels).Passed?
    ensures Second(lines, pc, labels) == Pass1(lines, pc, labels).bytes
    decreases |lines|
  {
    if lines != [] { SecondPasses(lines[1..], Line1(lines[0], pc, labels).pc, labels); }
  }

  lemma FirstStep(lines: seq<Line>, i: nat, pc: u16, labels: seq<Entry>)
    requires i < |lines|
    ensures var p := Line0(lines[i], pc, labels);
            && (p.Failed? ==> Pass0(lines[i..], pc, labels).Failed? && First(lines[i..], pc, labels) == labels)
            && (p.Passed? ==> Pass0(lines[i..], pc, labels) == Pass0(lines[i + 1..], p.pc, p.labels))
            && (p.Passed? ==> First(lines[i..], pc, labels) == First(lines[i + 1..], p.pc, p.labels))
  {
    assert lines[i..][0] == lines[i] && lines[i..][1..] == lines[i + 1..];
  }

  lemma SecondStep(lines: seq<Line>, i: nat, pc: u16, labels: seq<Entry>, before: seq<byte>)
    requires i < |lines|
    ensures var p := Line1(lines[i], pc, labels);
            && (p.Failed? ==> Pass1(lines[i..], pc, labels).Failed?)
            && (p.Failed? ==> Second(lines[i..], pc, labels) == Written(lines[i], pc, labels))
            && (p.Passed? ==> (Pass1(lines[i..], pc, labels).Passed? <==> Pass1(lines[i + 1..], p.pc, labels).Passed?))
            && (p.Passed? ==>
                  before + Second(lines[i..], pc, labels) == before + p.bytes + Second(lines[i + 1..], p.pc, labels))
  {
    assert lines[i..][0] == lines[i] && lines[i..][1..] == lines[i + 1..];
  }

  class Assembler {
    var pc: u16
    var second: bool
    var labels: seq<Entry>
    var output: seq<byte>

    constructor ()
      ensures pc == 0x5000 && !second && labels == [] && output == []
    {
      pc, second, labels, output := 0x5000, false, [], [];
    }

    /** Counts the byte in both passes and writes it in the second. */
    method EmitByte(b: byte)
      modifies this`pc, this`output
      ensures pc == Advance(old(pc), 1)
      ensures output == old(output) + if second then [b] else []
    {
      pc := Advance(pc, 1);
      if second { output := output + [b]; }
    }

    method Emit(bytes: seq<byte>)
      modifies this`pc, this`output
      ensures pc == Advance(old(pc), |bytes|)
      ensures output == old(output) + if second then bytes else []
    {
      var i := 0;
      while i < |bytes|
        invariant i <= |bytes|
        invariant pc == Advance(old(pc), i)
        invariant output == old(output) + if second then bytes[..i] else []
      {
        EmitByte(bytes[i]);
        assert bytes[..i + 1] == bytes[..i] + [bytes[i]];
        i := i + 1;
      }
      assert bytes[..i] == bytes;
    }

    /** The label search: nothing is known in the first pass. */
    method LabelAddress(n: Name) returns (addr: int)
      ensures addr == if second then LabelAddr(labels, n) else -1
    {
      if !second { return -1; }
      var i := 0;
      while i < |labels|
        invariant i <= |labels|
        invariant LabelAddr(labels, n) == LabelAddr(labels[i..], n)
      {
        if labels[i].name == n { return Int16(labels[i].address); }
        assert labels[i..][1..] == labels[i + 1..];
        i := i + 1;
      }
      return -1;
    }

    method ResolveOperand(a: Operand) returns (r: Operand)
      ensures r == if second then Resolve(labels, a) else a
    {
      r := a;
      match a
      case Bare(n) => {
        var addr := LabelAddress(n);
        if addr != -1 { r := Num(addr); }
      }
      case Paren(n) => {
        var addr := LabelAddress(n);
        if addr != -1 { r := ParenNum(addr); }
      }
      case _ =>
    }

    /** One line, as the current pass treats it. */
    method Codegen(l: Line) returns (ok: bool)
      modifies this`pc, this`labels, this`output
      ensures var p := if second then Line1(l, old(pc), old(labels)) else Line0(l, old(pc), old(labels));
              && (ok <==> p.Passed?)
              && (ok ==> pc == p.pc && labels == p.labels && output == old(output) + if second then p.bytes else [])
      ensures !ok ==> labels == old(labels)
      ensures !ok ==> output == old(output) + if second then Written(l, old(pc), labels) else []
      ensures second ==> labels == old(labels)
      ensures !second ==> output == old(output)
    {
      match l
      case Blank => ok := true;
      case Label(n) => {
        if second { return true; }
        if |labels| >= MAX_LABELS { return false; }
        labels := labels + [Entry(n, pc)];
        ok := true;
      }
      case Ins(op, a1, a2) => {
        var r1 := ResolveOperand(a1);
        var r2 := ResolveOperand(a2);
        var code := Gen(second, pc, op, r1, r2);
        ok := code.Code?;
        Emit(if ok then code.bytes else Partial(second, pc, op, r1, r2));
      }
    }

    /** The lines of the file, up to the first error. */
    method OnePass(lines: seq<Line>, base: u16) returns (ok: bool)
      requires output == []
      modifies this`pc, this`labels, this`output
      ensures ok <==>
              if second then Pass1(lines, base, old(labels)).Passed? else Pass0(lines, base, old(labels)).Passed?
      ensures second ==> labels == old(labels) && output == Second(lines, base, labels)
      ensures !second ==> labels == First(lines, base, old(labels)) && output == []
    {
      pc := base;
      var i := 0;
      while i < |lines|
        invariant i <= |lines|
        invariant second ==> labels == old(labels)
        invariant second ==> (Pass1(lines, base, labels).Passed? <==> Pass1(lines[i..], pc, labels).Passed?)
        invariant second ==> Second(lines, base, labels) == output + Second(lines[i..], pc, labels)
        invariant !second ==> output == []
        invariant !second ==> Pass0(lines, base, old(labels)) == Pass0(lines[i..], pc, labels)
        invariant !second ==> First(lines, base, old(labels)) == First(lines[i..], pc, labels)
      {
        if second { SecondStep(lines, i, pc, labels, output); } else { FirstStep(lines, i, pc, labels); }
        ok := Codegen(lines[i]);
        if !ok { return; }
        i := i + 1;
      }
      ok := true;
    }

    /**
     Both passes. An error ends its pass, not the run: the second pass then goes by the labels found
     so far, and its output up to its own first error stays in the file.
     */
    method Assemble(lines: seq<Line>, base: u16) returns (ok: bool)
      requires labels == [] && output == []
      modifies this
      ensures labels == First(lines, base, []) && output == Second(lines, base, labels)
      ensures var p := Pass0(lines, base, []);
              && (ok ==> p.Passed? && labels == p.labels && Pass1(lines, base, labels).Passed?)
              && (ok ==> output == Pass1(lines, base, labels).bytes)
              && (!ok ==> p.Failed? || Pass1(lines, base, labels).Failed?)
    {
      second := false;
      var first := OnePass(lines, base);
      second := true;
      var last := OnePass(lines, base);
      ok := first && last;
      if ok {
        FirstPasses(lines, base, []);
        SecondPasses(lines, base, labels);
      }
    }
  }
}
