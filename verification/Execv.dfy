/**
 The argument block of `execv`: strings from the front, a pointer table at the back whose place both
 the kernel and the C runtime compute from the argument count.
 */
module Execv {
  import opened Machine
  import opened MfsFormat

  const ARGV_SIZE := 242
  const PIH_ARGV: u16 := 0x4F0C
  const MAX_ARGS := 16

  /** Bytes the strings may take. */
  const STRINGS := 210

  /** Where the i-th string starts when they are packed one after the other. */
  function Offset(args: seq<CString>, i: nat): nat
    requires i <= |args|
  {
    if i == 0 then 0 else Offset(args, i - 1) + |args[i - 1]| + 1
  }

  /** The first `n` arguments can be taken. */
  predicate Fits(args: seq<CString>, n: nat) {
    n <= |args| && n <= MAX_ARGS && Offset(args, n) <= STRINGS
  }

  function Table(n: nat): nat
    requires n <= MAX_ARGS
  {
    ARGV_SIZE - (n + 1) * 2
  }

  function Joined(args: seq<CString>, n: nat): (s: seq<byte>)
    requires n <= |args|
    ensures |s| == Offset(args, n)
  {
    if n == 0 then [] else Joined(args, n - 1) + (args[n - 1] + [0])
  }

  /** `s` in a cleared block of `k` bytes. */
  function Pad(s: seq<byte>, k: nat): seq<byte> { seq(k, j requires 0 <= j < k => if j < |s| then s[j] else 0) }

  function Pointer(args: seq<CString>, i: nat): u16
    requires i <= |args| && Offset(args, i) < 0x100
  {
    PIH_ARGV + Offset(args, i)
  }

  function Pointers(args: seq<CString>, n: nat): (p: seq<byte>)
    requires Fits(args, n)
    ensures |p| == 2 * n
  {
    if n == 0 then [] else
      var a := Pointer(args, n - 1);
      Pointers(args, n - 1) + [Lo(a), Hi(a)]
  }

  function Layout(args: seq<CString>, n: nat): (r: seq<byte>)
    requires Fits(args, n)
    ensures |r| == ARGV_SIZE
  {
    Pad(Joined(args, n), Table(n)) + Pointers(args, n) + [0, 0]
  }

  // ---- reading the block back ---------------------------------------------------------------------------

  function ReadString(r: seq<byte>, at: nat): seq<byte>
    decreases |r| - at
  {
    if at >= |r| || r[at] == 0 then [] else [r[at]] + ReadString(r, at + 1)
  }

  function ReadWord(r: seq<byte>, at: nat): int
    requires at + 1 < |r|
  {
    r[at] as int + 256 * (r[at + 1] as int)
  }

  lemma {:induction false} OffsetGrows(args: seq<CString>, i: nat, n: nat)
    requires i <= n <= |args|
    ensures Offset(args, i) + (n - i) <= Offset(args, n)
    decreases n
  {
    if i < n { OffsetGrows(args, i, n - 1); }
  }

  lemma {:induction false} JoinedAt(args: seq<CString>, n: nat, i: nat, j: nat)
    requires i < n <= |args| && j <= |args[i]|
    ensures Offset(args, i) + j < Offset(args, n)
    ensures Joined(args, n)[Offset(args, i) + j] == if j < |args[i]| then args[i][j] else 0
    decreases n
  {
    if i < n - 1 { JoinedAt(args, n - 1, i, j); }
  }

  lemma {:induction false} PointersAt(args: seq<CString>, n: nat, i: nat)
    requires Fits(args, n) && i < n && Fits(args, i)
    ensures var p := Pointers(args, n); p[2 * i] == Lo(Pointer(args, i)) && p[2 * i + 1] == Hi(Pointer(args, i))
    decreases n
  {
    OffsetGrows(args, n - 1, n);
    if i < n - 1 { PointersAt(args, n - 1, i); }
  }

  /** Reading stops at the first zero. */
  lemma {:induction false} ReadsUntil(r: seq<byte>, at: nat, s: CString)
    requires at + |s| < |r| && r[at + |s|] == 0
    requires forall j :: 0 <= j < |s| ==> r[at + j] == s[j]
    ensures ReadString(r, at) == s
    decreases |s|
  {
    if s != [] {
      assert s[0] != 0 && r[at] == s[0];
      assert forall j :: 0 <= j < |s| - 1 ==> s[1..][j] == s[j + 1] && r[at + 1 + j] == s[j + 1];
      ReadsUntil(r, at + 1, s[1..]);
    }
  }

  lemma {:induction false} ReadsPast(r: seq<byte>, at: nat, n: nat)
    requires at + n <= |r| && forall j :: at <= j < at + n ==> r[j] != 0
    ensures |ReadString(r, at)| >= n
    decreases n
  {
    if n > 0 { ReadsPast(r, at + 1, n - 1); }
  }

  /** The table entry of an argument is the address of its string, and the table ends in a null pointer. */
  lemma TableReads(args: seq<CString>, n: nat, i: nat)
    requires Fits(args, n) && i <= n
    ensures Fits(args, i)
    ensures ReadWord(Layout(args, n), Table(n) + 2 * i) == if i < n then Pointer(args, i) else 0
  {
    OffsetGrows(args, i, n);
    var r := Layout(args, n);
    if i < n {
      PointersAt(args, n, i);
      assert r[Table(n) + 2 * i] == Pointers(args, n)[2 * i];
      assert r[Table(n) + 2 * i + 1] == Pointers(args, n)[2 * i + 1];
    }
  }

  lemma StringsBefore(args: seq<CString>, n: nat, i: nat, j: nat)
    requires Fits(args, n) && i < n && j <= |args[i]| && Offset(args, i) + j < Table(n)
    ensures Layout(args, n)[Offset(args, i) + j] == if j < |args[i]| then args[i][j] else 0
  {
    JoinedAt(args, n, i, j);
  }

  /** The addresses of the block have no zero byte. */
  lemma NoZeroByte(w: u16)
    requires PIH_ARGV <= w < PIH_ARGV + ARGV_SIZE
    ensures Lo(w) != 0 && Hi(w) != 0
  {
    assert w / 256 == 0x4F;
  }

  lemma LayoutTable(args: seq<CString>, n: nat, j: nat)
    requires Fits(args, n) && j < 2 * n
    ensures Layout(args, n)[Table(n) + j] == Pointers(args, n)[j]
  {
  }

  /** Neither do the pointers in the table. */
  lemma NoZeroPointer(args: seq<CString>, n: nat, k: nat)
    requires Fits(args, n) && Table(n) <= k < Table(n) + 2 * n
    ensures Layout(args, n)[k] != 0
  {
    var i := (k - Table(n)) / 2;
    OffsetGrows(args, i, n);
    PointersAt(args, n, i);
    LayoutTable(args, n, k - Table(n));
    NoZeroByte(Pointer(args, i));
  }

  predicate ReadsBack(args: seq<CString>, n: nat, i: nat)
    requires Fits(args, n) && i < n
  {
    ReadString(Layout(args, n), Offset(args, i)) == args[i]
  }

  /** Main result: an argument is read back through its pointer if and only if it ends before the table. */
  lemma ArgumentReads(args: seq<CString>, n: nat, i: nat)
    requires Fits(args, n) && i < n
    ensures ReadsBack(args, n, i) <==> Offset(args, i + 1) <= Table(n)
  {
    var r, at, s := Layout(args, n), Offset(args, i), args[i];
    OffsetGrows(args, i + 1, n);
    if at + |s| < Table(n) {
      StringsBefore(args, n, i, |s|);
      forall j | 0 <= j < |s| ensures r[at + j] == s[j] { StringsBefore(args, n, i, j); }
      ReadsUntil(r, at, s);
    } else {
      forall j | at <= j < at + |s| + 1 ensures r[j] != 0 {
        if j < Table(n) {
          StringsBefore(args, n, i, j - at);
          assert s[j - at] != 0;
        } else {
          NoZeroPointer(args, n, j);
        }
      }
      ReadsPast(r, at, |s| + 1);
    }
  }

  /** Every argument reads back unless there are sixteen of them in more than 208 bytes. */
  lemma AllRead(args: seq<CString>, n: nat)
    requires Fits(args, n)
    ensures (forall i :: 0 <= i < n ==> ReadsBack(args, n, i)) <==> !(n == MAX_ARGS && Offset(args, n) > 208)
  {
    if n == MAX_ARGS && Offset(args, n) > 208 {
      ArgumentReads(args, n, n - 1);
    } else {
      forall i | 0 <= i < n ensures ReadsBack(args, n, i) {
        ArgumentReads(args, n, i);
        OffsetGrows(args, i + 1, n);
      }
    }
  }

  /** The runtime's table address, in the 8-bit steps of its start-up code. */
  function RuntimeTable(argc: u16): u16 {
    var twice: byte := (Lo(argc) + 1) % 0x100 * 2 % 0x100;
    var low: byte := (242 - twice) % 0x100;
    (low + 0x0C) % 0x100 + 0x4F * 0x100
  }

  lemma RuntimeAgrees(n: nat)
    requires n <= MAX_ARGS
    ensures RuntimeTable(n) == PIH_ARGV + Table(n)
  {
    assert Lo(n) == n;
    assert (n + 1) % 0x100 * 2 % 0x100 == 2 * n + 2;
    assert (242 - (2 * n + 2)) % 0x100 == 240 - 2 * n;
    assert (240 - 2 * n + 0x0C) % 0x100 == 252 - 2 * n;
  }

  // ---- packing ---------------------------------------------------------------------------------------------

  /** The `argv` parameter. */
  datatype Argv = Null | Vector(args: seq<CString>)

  method CopyString(block: array<byte>, at: nat, s: CString)
    requires at + |s| < block.Length
    modifies block
    ensures block[..] == old(block[..at]) + (s + [0]) + old(block[at + |s| + 1..])
  {
    var j := 0;
    while j < |s|
      invariant j <= |s|
      invariant forall k :: 0 <= k < block.Length ==> block[k] == if at <= k < at + j then s[k - at] else old(block[k])
    {
      block[at + j] := s[j];
      j := j + 1;
    }
    block[at + |s|] := 0;
  }

  method Clear(block: array<byte>)
    modifies block
    ensures block[..] == Pad([], block.Length)
  {
    var j := 0;
    while j < block.Length
      invariant j <= block.Length && forall k :: 0 <= k < j ==> block[k] == 0
    {
      block[j] := 0;
      j := j + 1;
    }
  }

  lemma PadMore(s: seq<byte>, t: seq<byte>, k: nat)
    requires |s| + |t| <= k
    ensures Pad(s, k)[..|s|] + t + Pad(s, k)[|s| + |t|..] == Pad(s + t, k)
  {
  }

  /** One more string after those before it. */
  method PlaceString(block: array<byte>, args: seq<CString>, i: nat)
    requires block.Length == ARGV_SIZE && i < |args| && Offset(args, i + 1) <= STRINGS
    requires block[..] == Pad(Joined(args, i), ARGV_SIZE)
    modifies block
    ensures block[..] == Pad(Joined(args, i + 1), ARGV_SIZE)
  {
    ghost var before := block[..];
    PadMore(Joined(args, i), args[i] + [0], ARGV_SIZE);
    CopyString(block, Offset(args, i), args[i]);
    assert old(block[..Offset(args, i)]) == before[..Offset(args, i)];
    assert old(block[Offset(args, i) + |args[i]| + 1..]) == before[Offset(args, i + 1)..];
  }

  /** The strings, as many as fit, and their offsets. */
  method CopyStrings(block: array<byte>, args: seq<CString>) returns (argc: nat, offsets: seq<byte>)
    requires block.Length == ARGV_SIZE && block[..] == Pad([], ARGV_SIZE)
    modifies block
    ensures Fits(args, argc) && !Fits(args, argc + 1)
    ensures block[..] == Pad(Joined(args, argc), ARGV_SIZE)
    ensures |offsets| == argc && forall i :: 0 <= i < argc ==> offsets[i] == Offset(args, i)
  {
    offsets := [];
    argc := 0;
    var pos := 0;
    while argc < |args| && argc < MAX_ARGS
      invariant Fits(args, argc) && pos == Offset(args, argc)
      invariant block[..] == Pad(Joined(args, argc), ARGV_SIZE)
      invariant |offsets| == argc && forall i :: 0 <= i < argc ==> offsets[i] == Offset(args, i)
    {
      var len := |args[argc]| + 1;
      if pos + len > STRINGS { break; }
      offsets := offsets + [pos];
      PlaceString(block, args, argc);
      pos := pos + len;
      argc := argc + 1;
    }
  }

  method SetWord(block: array<byte>, at: nat, w: u16)
    requires at + 1 < block.Length
    modifies block
    ensures block[..at + 2] == old(block[..at]) + [Lo(w), Hi(w)]
  {
    block[at] := Lo(w);
    block[at + 1] := Hi(w);
  }

  lemma PointersNext(args: seq<CString>, i: nat, before: seq<byte>, w: u16)
    requires Fits(args, i + 1) && Fits(args, i) && w == Pointer(args, i)
    ensures before + Pointers(args, i) + [Lo(w), Hi(w)] == before + Pointers(args, i + 1)
  {
  }

  /** The pointer table over whatever lies there. */
  method SetPointers(block: array<byte>, args: seq<CString>, argc: nat, offsets: seq<byte>)
    requires block.Length == ARGV_SIZE
    requires Fits(args, argc) && block[..] == Pad(Joined(args, argc), ARGV_SIZE)
    requires |offsets| == argc && forall i :: 0 <= i < argc ==> offsets[i] == Offset(args, i)
    modifies block
    ensures block[..] == Layout(args, argc)
  {
    var table := Table(argc);
    ghost var strings := Pad(Joined(args, argc), table);
    var i := 0;
    while i < argc
      invariant i <= argc && Fits(args, i)
      invariant block[..table + i * 2] == strings + Pointers(args, i)
    {
      OffsetGrows(args, i + 1, argc);
      PointersNext(args, i, strings, PIH_ARGV + offsets[i]);
      SetWord(block, table + i * 2, PIH_ARGV + offsets[i]);
      i := i + 1;
    }
    SetWord(block, table + argc * 2, 0);
    assert block[..] == block[..table + 2 * argc + 2];
  }

  method Pack(block: array<byte>, argv: Argv) returns (argc: nat)
    requires block.Length == ARGV_SIZE
    modifies block
    ensures var args := if argv.Null? then [] else argv.args;
            Fits(args, argc) && !Fits(args, argc + 1) && block[..] == Layout(args, argc)
  {
    Clear(block);
    match argv
    case Null => argc := 0;
    case Vector(args) => {
      var offsets;
      argc, offsets := CopyStrings(block, args);
      SetPointers(block, args, argc, offsets);
    }
  }
}
