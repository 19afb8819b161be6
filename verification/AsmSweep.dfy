/**
 A whole assembled program, swept from its first byte by the emulator's decoder: one fetch for every
 instruction line, at that line's address and of that line's length.
 */
module AsmSweep {
  import opened Machine
  import opened Z80
  import opened Asm
  import opened AsmDecode
  import opened AsmMeaning

  datatype Item = Item(at: u16, fetched: Fetched)

  /** The first `n` instructions found by decoding straight on from `pc`. */
  function Sweep(decode: u16 -> Fetched, pc: u16, n: nat): (s: seq<Item>)
    ensures |s| == n
    decreases n
  {
    if n == 0 then [] else [Item(pc, decode(pc))] + Sweep(decode, Wrap(pc + decode(pc).len), n - 1)
  }

  /** An instruction line of the program, with its labels resolved: its address and its length. */
  datatype Source = Source(at: u16, len: nat, op: Op, a1: Operand, a2: Operand)

  function Sources(lines: seq<Line>, pc: u16, labels: seq<Entry>): seq<Source>
    decreases |lines|
  {
    if lines == [] then []
    else
      var p := Line1(lines[0], pc, labels);
      if p.Failed? then [] else
        var rest := Sources(lines[1..], p.pc, labels);
        match lines[0]
        case Ins(op, a1, a2) => [Source(pc, |p.bytes|, op, Resolve(labels, a1), Resolve(labels, a2))] + rest
        case _ => rest
  }

  predicate Vectors(lines: seq<Line>, labels: seq<Entry>) {
    forall j :: 0 <= j < |lines| && lines[j].Ins? ==> VectorOk(lines[j].op, Resolve(labels, lines[j].a1))
  }

  /** The line was fetched whole, and with its own meaning unless its form is deviant. */
  predicate Recovered(item: Item, src: Source) {
    && item.at == src.at && item.fetched.len == src.len
    && Carries(src.at, item.fetched.i, MeaningOf(src.op, src.a1, src.a2), Deviant(src.at, src.op, src.a1, src.a2))
  }

  lemma HoldsParts(mem: Mem, a: nat, b: seq<byte>, c: seq<byte>)
    requires Holds(mem, a, b + c)
    ensures Holds(mem, a, b) && Holds(mem, a + |b|, c)
  {
    assert forall j :: 0 <= j < |b| ==> (b + c)[j] == b[j];
    assert forall j :: 0 <= j < |c| ==> (b + c)[|b| + j] == c[j];
  }

  lemma LineRecovered(mem: Mem, at: u16, op: Op, a1: Operand, a2: Operand)
    requires Gen(true, at, op, a1, a2).Code? && VectorOk(op, a1)
    requires Holds(mem, at, Gen(true, at, op, a1, a2).bytes)
    ensures Recovered(Item(at, Decode(mem, at)), Source(at, |Gen(true, at, op, a1, a2).bytes|, op, a1, a2))
  {
    LineDecodes(mem, at, op, a1, a2);
    LineMeans(at, op, a1, a2);
  }

  /** Each line starts where the one before it ends. */
  predicate Linked(src: seq<Source>, pc: u16) {
    && (src != [] ==> src[0].at == pc)
    && forall k :: 0 < k < |src| ==> src[k].at == Wrap(src[k - 1].at + src[k - 1].len)
  }

  lemma LinkedAgain(s: Source, rest: seq<Source>)
    requires Linked(rest, Wrap(s.at + s.len))
    ensures Linked([s] + rest, s.at)
  {
    var src := [s] + rest;
    forall k | 0 < k < |src| ensures src[k].at == Wrap(src[k - 1].at + src[k - 1].len) {
      assert src[k] == rest[k - 1];
      if k > 1 { assert src[k - 1] == rest[k - 2]; }
    }
  }

  lemma {:induction false} SourcesLinked(lines: seq<Line>, pc: u16, labels: seq<Entry>)
    requires Pass1(lines, pc, labels).Passed?
    ensures Linked(Sources(lines, pc, labels), pc)
    decreases |lines|
  {
    if lines != [] {
      var p := Line1(lines[0], pc, labels);
      var rest := Sources(lines[1..], p.pc, labels);
      SourcesLinked(lines[1..], p.pc, labels);
      if lines[0].Ins? {
        var s := Source(pc, |p.bytes|, lines[0].op, Resolve(labels, lines[0].a1), Resolve(labels, lines[0].a2));
        LinkedAgain(s, rest);
        assert Sources(lines, pc, labels) == [s] + rest;
      }
    }
  }

  /** The bytes of a line, as its pass emitted them. */
  function CodeOf(s: Source): Out { Gen(true, s.at, s.op, s.a1, s.a2) }

  predicate Placed(mem: Mem, s: Source) {
    && VectorOk(s.op, s.a1) && CodeOf(s).Code? && s.len == |CodeOf(s).bytes| && Holds(mem, s.at, CodeOf(s).bytes)
  }

  lemma VectorsOfRest(lines: seq<Line>, labels: seq<Entry>)
    requires lines != [] && Vectors(lines, labels)
    ensures Vectors(lines[1..], labels)
  {
  }

  /** Every line's bytes are found in memory at its address. */
  lemma {:induction false} SourcesPlaced(mem: Mem, lines: seq<Line>, pc: u16, labels: seq<Entry>)
    requires Pass1(lines, pc, labels).Passed? && Vectors(lines, labels)
    requires Holds(mem, pc, Pass1(lines, pc, labels).bytes)
    ensures forall s :: s in Sources(lines, pc, labels) ==> Placed(mem, s)
    decreases |lines|
  {
    if lines != [] {
      var p := Line1(lines[0], pc, labels);
      var rest := Pass1(lines[1..], p.pc, labels);
      assert Pass1(lines, pc, labels).bytes == p.bytes + rest.bytes;
      HoldsParts(mem, pc, p.bytes, rest.bytes);
      assert p.pc == pc + |p.bytes|;
      VectorsOfRest(lines, labels);
      SourcesPlaced(mem, lines[1..], p.pc, labels);
    }
  }

  /** A decoder that finds each line's length stays in step with linked lines. */
  lemma {:induction false} SweepInStep(decode: u16 -> Fetched, src: seq<Source>, pc: u16, k: nat)
    requires Linked(src, pc) && k < |src|
    requires forall s :: s in src ==> decode(s.at).len == s.len
    ensures Sweep(decode, pc, |src|)[k] == Item(src[k].at, decode(src[k].at))
    decreases k
  {
    if k > 0 {
      var next := Wrap(pc + decode(pc).len);
      assert src[0] in src;
      assert Linked(src[1..], next) by {
        assert src[1].at == next;
        forall j | 0 < j < |src[1..]| ensures src[1..][j].at == Wrap(src[1..][j - 1].at + src[1..][j - 1].len) {
          assert src[1..][j] == src[j + 1] && src[1..][j - 1] == src[j];
        }
      }
      SweepInStep(decode, src[1..], next, k - 1);
    }
  }

  lemma PlacedLength(mem: Mem, s: Source)
    requires Placed(mem, s)
    ensures Decode(mem, s.at).len == s.len && Recovered(Item(s.at, Decode(mem, s.at)), s)
  {
    LineRecovered(mem, s.at, s.op, s.a1, s.a2);
  }

  function Decoder(mem: Mem): u16 -> Fetched { (a: u16) => Decode(mem, a) }

  lemma AllRead(mem: Mem, src: seq<Source>)
    requires forall s :: s in src ==> Placed(mem, s)
    ensures forall s :: s in src ==> Decoder(mem)(s.at).len == s.len
    ensures forall s :: s in src ==> Recovered(Item(s.at, Decoder(mem)(s.at)), s)
  {
    forall s | s in src
      ensures Decoder(mem)(s.at).len == s.len && Recovered(Item(s.at, Decoder(mem)(s.at)), s)
    {
      PlacedLength(mem, s);
    }
  }

  /** Main result: the k-th fetch of the sweep is the k-th instruction line. */
  lemma SweepRecovers(mem: Mem, lines: seq<Line>, pc: u16, labels: seq<Entry>, k: nat)
    requires Pass1(lines, pc, labels).Passed? && Vectors(lines, labels)
    requires Holds(mem, pc, Pass1(lines, pc, labels).bytes)
    requires k < |Sources(lines, pc, labels)|
    ensures var src := Sources(lines, pc, labels);
            Recovered(Sweep(Decoder(mem), pc, |src|)[k], src[k])
  {
    var src := Sources(lines, pc, labels);
    SourcesLinked(lines, pc, labels);
    SourcesPlaced(mem, lines, pc, labels);
    AllRead(mem, src);
    SweepInStep(Decoder(mem), src, pc, k);
    assert src[k] in src;
  }
}
