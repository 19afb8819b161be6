/**
 mfs-util, the host tool that writes the same disk format: formatting an image, and storing a whole
 file at once. Its delete wipes the old chain but leaves the bitmap bits set, so those blocks leak;
 what it stores is nevertheless read back unchanged, by its own loader and by the kernel's.
 */
module MfsUtil {
  import opened Machine
  import opened MfsFormat
  import opened MfsState
  import opened MfsChains
  import opened MfsContents
  import opened MfsReads
  import opened MfsLife
  import opened MfsKernel
  import MfsStructure

  const FS_MAX_SECTORS: u16 := 2877

  // ---- format --------------------------------------------------------------------------------

  function FreshRoot(): Root {
    Root([0, 0, 0], CHECKSUM, FS_MAX_SECTORS, 1, 2, 3, MAX_FILES, 0, seq(496, _ => 0))
  }

  function FreshBitmap(): Sector { Mark(Mark(Mark(ZeroSector(), 0), 1), 2) }

  /** Zeroes sectors [i, FS_MAX_SECTORS). */
  function ZeroFrom(disk: seq<Sector>, i: nat): (d: seq<Sector>)
    requires FS_MAX_SECTORS <= |disk|
    ensures |d| == |disk|
    ensures forall x :: 0 <= x < |disk| ==> d[x] == if i <= x < FS_MAX_SECTORS then ZeroSector() else disk[x]
    decreases FS_MAX_SECTORS - i
  {
    if i >= FS_MAX_SECTORS then disk else ZeroFrom(disk[i := ZeroSector()], i + 1)
  }

  function Format(disk: seq<Sector>): seq<Sector>
    requires FS_MAX_SECTORS <= |disk|
  {
    ZeroFrom(disk[0 := EncodeRoot(FreshRoot())][1 := FreshBitmap()][2 := ZeroSector()], 3)
  }

  method FormatDisk(disk: seq<Sector>) returns (d: seq<Sector>)
    requires FS_MAX_SECTORS <= |disk|
    ensures d == Format(disk)
  {
    d := disk[0 := EncodeRoot(FreshRoot())][1 := FreshBitmap()][2 := ZeroSector()];
    var i := 3;
    while i < FS_MAX_SECTORS
      invariant 3 <= i <= FS_MAX_SECTORS && |d| == |disk|
      invariant ZeroFrom(d, i) == Format(disk)
    {
      d := d[i := ZeroSector()];
      i := i + 1;
    }
  }

  function NoChains(): Chains { seq(MAX_FILES, _ => []) }

  /** An all-zero table has 24 zero entries. */
  lemma {:induction false} ZeroEntries(s: seq<byte>)
    requires forall i :: 0 <= i < |s| ==> s[i] == 0
    ensures forall j :: 0 <= j < |DecodeEntries(s)| ==> DecodeEntries(s)[j] == ZeroEntry()
    decreases |s|
  {
    if |s| >= ENTRY {
      assert s[..ENTRY][3..15] == ZeroEntry().name;
      ZeroEntries(s[ENTRY..]);
    }
  }

  /** A formatted image mounts as an empty, packed, sound volume. */
  lemma FormatMounts(disk: seq<Sector>) returns (s: State)
    requires FS_MAX_SECTORS <= |disk|
    ensures DecodeRoot(Format(disk)[0]) == FreshRoot() && Geometry(Format(disk), FreshRoot())
    ensures Mount(Format(disk)) == Mounted(s)
    ensures Filed(s, NoChains()) && Packed(s) && forall d :: 0 <= d < FD_MAX ==> !s.fds[d].FileFd?
    ensures FreeBlocks(s) == 2874 && s.root.maxFiles == 24 && s.root.fileCount == 0
  {
    var d := Format(disk);
    RootRoundTrip(FreshRoot());
    assert d[0] == EncodeRoot(FreshRoot()) && d[2] == ZeroSector();
    ZeroEntries(ZeroSector());
    s := Mount(d).state;
    forall i | 0 <= i < MAX_FILES ensures SlotSound(s, i, NoChains()[i]) { assert s.files[i] == ZeroEntry(); }
    assert d[1] == FreshBitmap();
    forall b: u16 | 3 <= b < FS_MAX_SECTORS ensures !Marked(s.bitmap, b) { FreshMarks(b); }
    AllFree(s.bitmap, 3, FS_MAX_SECTORS);
  }

  /** Root, bitmap and table are marked, and nothing else. */
  lemma FreshMarks(b: u16)
    requires b < 8 * SECTOR
    ensures Marked(FreshBitmap(), b) <==> b < 3
  {
    MarkMarks(Mark(Mark(ZeroSector(), 0), 1), 2, b);
    MarkMarks(Mark(ZeroSector(), 0), 1, b);
    MarkMarks(ZeroSector(), 0, b);
    NoBits(b % 8);
  }

  lemma {:induction false} NoBits(k: nat)
    ensures !TestBit(0, k)
  {
    if k > 0 { NoBits(k - 1); }
  }

  lemma {:induction false} AllFree(bm: Sector, lo: u16, hi: u16)
    requires lo <= hi <= 8 * SECTOR && forall b: u16 :: lo <= b < hi ==> !Marked(bm, b)
    ensures FreeIn(bm, lo, hi) == hi - lo
    decreases hi - lo
  {
    if lo < hi { AllFree(bm, lo + 1, hi); }
  }

  /** Whatever the kernel is asked to do with a formatted disk, its chains stay sound. */
  lemma FormattedRunsSound(disk: seq<Sector>, s: State, ops: seq<MfsStructure.Op>)
    requires FS_MAX_SECTORS <= |disk| && Mount(Format(disk)) == Mounted(s) && MfsStructure.RunAllowed(s, ops)
    ensures Sound(MfsStructure.Run(s, ops))
  {
    var t := FormatMounts(disk);
    assert SoundWith(s, NoChains());
    MfsStructure.RunsStaySound(s, ops);
  }

  // ---- storing a file ----------------------------------------------------------------------------

  /** The 8-bit file count, one less. */
  function Fewer(count: byte): byte { (count as int - 1) % 0x100 }

  /** The entry without its file; its name stays. */
  function Emptied(f: FileEntry): FileEntry { f.(flags := 0, size := 0, block := 0, blockSize := 0) }

  /** The volume with the chain of slot `i` wiped and its entry emptied. */
  function Cleared(s: State, i: int): (r: State)
    requires Sane(s) && FS_MAX_SECTORS <= |s.disk| && 0 <= i < MAX_FILES
    ensures Sane(r) && r.root == s.root && r.bitmap == s.bitmap && |r.disk| == |s.disk|
  {
    s.(disk := EraseWalk(s.disk, s.bitmap, FS_MAX_SECTORS, s.files[i].block).0,
       files := s.files[i := Emptied(s.files[i])])
  }

  /** The tool's `mfs_delete`: no bitmap bit is cleared, and a count of 0 wraps to 255. */
  function Wipe(s: State, i: int): (r: State)
    requires Sane(s) && FS_MAX_SECTORS <= |s.disk| && 0 <= i < MAX_FILES
    ensures r.root == s.root.(fileCount := Fewer(s.root.fileCount)) && Regions(r.disk, r.root)
    ensures r.files == s.files[i := Emptied(s.files[i])] && r.bitmap == s.bitmap && |r.disk| == |s.disk|
  {
    WriteChanges(Cleared(s, i).(root := s.root.(fileCount := Fewer(s.root.fileCount))))
  }

  function BlocksFor(n: nat): nat { (n + PAYLOAD - 1) / PAYLOAD }

  /** Sets the used byte of the block allocated last. */
  function SetUsed(s: State, got: seq<u16>): (r: State)
    requires Sane(s) && InDisk(s.disk, got)
    ensures Sane(r) && r == s.(disk := r.disk) && |r.disk| == |s.disk|
  {
    if got == [] then s else s.(disk := s.disk[Last(got) := s.disk[Last(got)][0 := 1]])
  }

  /** `n` more blocks after `got`; a block's used byte is set once the next one is asked for. */
  function AllocMany(s: State, n: nat, got: seq<u16>): (r: (State, seq<u16>, bool))
    requires Sane(s) && InDisk(s.disk, got)
    ensures Sane(r.0) && r.0.root == s.root && r.0.files == s.files && |r.0.disk| == |s.disk| && r.0.fds == s.fds
    ensures InDisk(s.disk, r.1)
    ensures r.2 ==> |r.1| == |got| + n
    decreases n
  {
    if n == 0 then (s, got, true)
    else
      var (s2, b) := AllocBlock(SetUsed(s, got));
      if b == 0 then (s2, got, false) else AllocMany(s2, n - 1, got + [b])
  }

  /** A data sector: used, next pointer, payload, zero filled. */
  function Image(next: u16, chunk: seq<byte>): Sector
    requires |chunk| <= PAYLOAD
  {
    Patch(SetNext(BlankBlock(), next), 0, chunk)
  }

  function Chunk(data: seq<byte>, k: nat): (c: seq<byte>)
    requires PAYLOAD * k <= |data|
    ensures |c| <= PAYLOAD
  {
    data[PAYLOAD * k..Min(PAYLOAD * k + PAYLOAD, |data|)]
  }

  /** Writes blocks `k` and up of `data` onto the sectors of `bs`. */
  function LayOut(disk: seq<Sector>, bs: seq<u16>, data: seq<byte>, k: nat): (d: seq<Sector>)
    requires k <= |bs| == BlocksFor(|data|) && InDisk(disk, bs)
    ensures |d| == |disk|
    decreases |bs| - k
  {
    if k == |bs| then disk
    else LayOut(disk[bs[k] := Image(After(bs, k), Chunk(data, k))], bs, data, k + 1)
  }

  /** `mfs_write` then `save_to_disk`, for slot `i`; false when blocks run out. The count is put back at once. */
  function Store(s: State, i: int, data: seq<byte>): (r: (State, bool))
    requires Sane(s) && FS_MAX_SECTORS <= |s.disk| && 0 <= i < MAX_FILES && 1 <= |data| <= 16384
    ensures Sane(r.0)
  {
    var temp := s.files[i].(size := |data|);
    var s2 := Wipe(s, i).(root := s.root);
    var (s3, bs, ok) := AllocMany(s2, BlocksFor(|data|), []);
    if !ok then (s3, false)
    else
      (s3.(disk := LayOut(s3.disk, bs, data, 0),
           files := s3.files[i := temp.(block := bs[0], blockSize := |bs|)]), true)
  }

  lemma KeptTrans(s: State, cs: Chains, m: State, cm: Chains, r: State, cr: Chains, i: int)
    requires OthersKept(s, cs, m, cm, i) && OthersKept(m, cm, r, cr, i)
    ensures OthersKept(s, cs, r, cr, i)
  {
    forall j | 0 <= j < MAX_FILES && j != i ensures Kept(s, cs, r, cr, j) {
      assert Kept(s, cs, m, cm, j) && Kept(m, cm, r, cr, j);
    }
  }

  /** Changes that leave every chain's sectors, marks and entries alone keep every file. */
  lemma SameKept(s: State, cs: Chains, r: State)
    requires Filed(s, cs) && Sane(r) && |r.disk| == |s.disk|
    requires r.root.dataStart == s.root.dataStart && r.root.total == s.root.total && r.files == s.files
    requires forall j, k :: 0 <= j < MAX_FILES && 0 <= k < |cs[j]| ==>
               cs[j][k] < 8 * SECTOR && cs[j][k] < |s.disk|
               && r.disk[cs[j][k]] == s.disk[cs[j][k]] && Marked(r.bitmap, cs[j][k])
    ensures OthersKept(s, cs, r, cs, -1)
  {
    forall j | 0 <= j < MAX_FILES
      ensures SlotSound(r, j, cs[j]) && Bytes(r.disk, cs[j], s.files[j].size) == Content(s, cs, j)
    {
      assert SlotSound(s, j, cs[j]);
      ChainElsewhere(s.disk, r.disk, s.files[j].block, cs[j], s.files[j].size);
    }
  }

  /** Blocks set aside: distinct, marked data blocks that belong to no file. */
  ghost predicate Spare(s: State, cs: Chains, bs: seq<u16>) {
    && Sane(s) && NoDup(bs) && AllData(s.root, bs) && AllMarked(s.bitmap, bs)
    && forall j :: 0 <= j < MAX_FILES ==> Disjoint(bs, cs[j])
  }

  lemma UseByteKeeps(s: State, cs: Chains, b: u16, sector: Sector)
    requires Filed(s, cs) && b < |s.disk| && forall j :: 0 <= j < MAX_FILES ==> b !in cs[j]
    ensures OthersKept(s, cs, s.(disk := s.disk[b := sector]), cs, -1)
  {
    forall j, k | 0 <= j < MAX_FILES && 0 <= k < |cs[j]|
      ensures cs[j][k] < |s.disk| && cs[j][k] != b && cs[j][k] < 8 * SECTOR && Marked(s.bitmap, cs[j][k])
    {
      assert SlotSound(s, j, cs[j]) && b !in cs[j];
    }
    SameKept(s, cs, s.(disk := s.disk[b := sector]));
  }

  lemma MarkKeepsFiles(s: State, cs: Chains, b: u16)
    requires Filed(s, cs) && b < s.root.total
    ensures OthersKept(s, cs, s.(bitmap := Mark(s.bitmap, b)), cs, -1)
  {
    forall j, k | 0 <= j < MAX_FILES && 0 <= k < |cs[j]|
      ensures cs[j][k] < |s.disk| && cs[j][k] < 8 * SECTOR && Marked(Mark(s.bitmap, b), cs[j][k])
    {
      assert SlotSound(s, j, cs[j]);
      MarkMarks(s.bitmap, b, cs[j][k]);
    }
    SameKept(s, cs, s.(bitmap := Mark(s.bitmap, b)));
  }

  lemma SpareMore(s: State, cs: Chains, got: seq<u16>, b: u16)
    requires Filed(s, cs) && Spare(s, cs, got) && IsData(s.root, b) && !Marked(s.bitmap, b)
    ensures Spare(s.(bitmap := Mark(s.bitmap, b)), cs, got + [b])
  {
    FreshBlock(s, cs, b);
    MarkMore(s.bitmap, got, b);
  }

  lemma KeptSelf(s: State, cs: Chains)
    requires Filed(s, cs)
    ensures OthersKept(s, cs, s, cs, -1)
  {
  }

  /** One allocation, with the block before it marked as used. */
  ghost predicate OneMore(s: State, cs: Chains, got: seq<u16>, s2: State, b: u16) {
    && OthersKept(s, cs, s2, cs, -1) && (b == 0 <==> FreeBlocks(s) == 0)
    && (b == 0 ==> Spare(s2, cs, got))
    && (b != 0 ==> Spare(s2, cs, got + [b]) && FreeBlocks(s2) == FreeBlocks(s) - 1)
  }

  lemma AllocStep(s: State, cs: Chains, got: seq<u16>)
    requires Filed(s, cs) && Spare(s, cs, got) && InDisk(s.disk, got)
    ensures var (s2, b) := AllocBlock(SetUsed(s, got)); OneMore(s, cs, got, s2, b)
  {
    var s1 := SetUsed(s, got);
    KeptSelf(s, cs);
    if got != [] { UseByteKeeps(s, cs, Last(got), s.disk[Last(got)][0 := 1]); }
    var (s2, b) := AllocBlock(s1);
    ScanFindsFree(s.bitmap, s.root.dataStart, s.root.total);
    if b != 0 {
      MarkKeepsFiles(s1, cs, b);
      KeptTrans(s, cs, s1, cs, s2, cs, -1);
      SpareMore(s1, cs, got, b);
      MarkTakesOne(s.bitmap, s.root.dataStart, s.root.total, b);
    }
  }

  /** `n` blocks were asked for: all were found, if and only if that many were free. */
  ghost predicate Allocated(s: State, cs: Chains, n: nat, r: State, bs: seq<u16>, ok: bool) {
    OthersKept(s, cs, r, cs, -1) && Spare(r, cs, bs) && (ok <==> n <= FreeBlocks(s))
  }

  lemma AllocatedMore(s: State, cs: Chains, n: nat, got: seq<u16>, m: State, b: u16, r: State, bs: seq<u16>, ok: bool)
    requires OneMore(s, cs, got, m, b) && b != 0 && n > 0 && Allocated(m, cs, n - 1, r, bs, ok)
    ensures Allocated(s, cs, n, r, bs, ok)
  {
    KeptTrans(s, cs, m, cs, r, cs, -1);
  }

  lemma AllocatedNone(s: State, cs: Chains, n: nat, got: seq<u16>, m: State, b: u16)
    requires OneMore(s, cs, got, m, b) && b == 0 && n > 0
    ensures Allocated(s, cs, n, m, got, false)
  {
  }

  lemma AllocNext(s: State, n: nat, got: seq<u16>)
    requires Sane(s) && n > 0 && InDisk(s.disk, got)
    ensures var (s2, b) := AllocBlock(SetUsed(s, got));
            && (b == 0 ==> AllocMany(s, n, got) == (s2, got, false))
            && (b != 0 ==> b < |s2.disk| && AllocMany(s, n, got) == AllocMany(s2, n - 1, got + [b]))
  {
  }

  /** Allocation succeeds exactly when enough blocks are free, and disturbs no file. */
  lemma {:induction false} AllocManySpare(s: State, cs: Chains, n: nat, got: seq<u16>, r: (State, seq<u16>, bool))
    requires Filed(s, cs) && Spare(s, cs, got) && InDisk(s.disk, got)
    requires r == AllocMany(s, n, got)
    ensures Allocated(s, cs, n, r.0, r.1, r.2)
    decreases n
  {
    if n == 0 {
      KeptSelf(s, cs);
    } else {
      var (s2, b) := AllocBlock(SetUsed(s, got));
      AllocStep(s, cs, got);
      AllocNext(s, n, got);
      if b == 0 {
        AllocatedNone(s, cs, n, got, s2, b);
      } else {
        AllocManySpare(s2, cs, n - 1, got + [b], r);
        AllocatedMore(s, cs, n, got, s2, b, r.0, r.1, r.2);
      }
    }
  }

  // ---- laying the blocks out ---------------------------------------------------------------------

  lemma {:induction false} LaidOut(disk: seq<Sector>, bs: seq<u16>, data: seq<byte>, k: nat, j: nat)
    requires k <= |bs| == BlocksFor(|data|) && InDisk(disk, bs) && NoDup(bs) && j < |bs|
    ensures LayOut(disk, bs, data, k)[bs[j]] == if j < k then disk[bs[j]] else Image(After(bs, j), Chunk(data, j))
    decreases |bs| - k
  {
    if k < |bs| { LaidOut(disk[bs[k] := Image(After(bs, k), Chunk(data, k))], bs, data, k + 1, j); }
  }

  lemma {:induction false} LaidElsewhere(disk: seq<Sector>, bs: seq<u16>, data: seq<byte>, k: nat, x: u16)
    requires k <= |bs| == BlocksFor(|data|) && InDisk(disk, bs) && x !in bs && x < |disk|
    ensures LayOut(disk, bs, data, k)[x] == disk[x]
    decreases |bs| - k
  {
    if k < |bs| { LaidElsewhere(disk[bs[k] := Image(After(bs, k), Chunk(data, k))], bs, data, k + 1, x); }
  }

  lemma LaidChain(disk: seq<Sector>, bs: seq<u16>, data: seq<byte>)
    requires |bs| == BlocksFor(|data|) && InDisk(disk, bs) && NoDup(bs) && bs != []
    requires forall j :: 0 <= j < |bs| ==> bs[j] != 0
    ensures IsChain(LayOut(disk, bs, data, 0), bs[0], bs)
  {
    var d := LayOut(disk, bs, data, 0);
    forall j | 0 <= j < |bs| ensures Next(d[bs[j]]) == After(bs, j) { LaidOut(disk, bs, data, 0, j); }
  }

  lemma LaidByte(disk: seq<Sector>, bs: seq<u16>, data: seq<byte>, x: nat)
    requires |bs| == BlocksFor(|data|) && InDisk(disk, bs) && NoDup(bs) && x < |data|
    ensures |data| <= PAYLOAD * |bs|
    ensures Bytes(LayOut(disk, bs, data, 0), bs, |data|)[x] == data[x]
  {
    var k, o := x / PAYLOAD, x % PAYLOAD;
    assert x == PAYLOAD * k + o && k < |bs|;
    LaidOut(disk, bs, data, 0, k);
    assert Image(After(bs, k), Chunk(data, k))[HEADER + o] == Chunk(data, k)[o] == data[x];
  }

  /** The blocks laid out form a chain that holds exactly the data. */
  lemma LaidOutFile(disk: seq<Sector>, bs: seq<u16>, data: seq<byte>)
    requires |bs| == BlocksFor(|data|) && InDisk(disk, bs) && NoDup(bs) && data != []
    requires forall j :: 0 <= j < |bs| ==> bs[j] != 0
    ensures |data| <= PAYLOAD * |bs|
    ensures IsChain(LayOut(disk, bs, data, 0), bs[0], bs)
    ensures Bytes(LayOut(disk, bs, data, 0), bs, |data|) == data
  {
    LaidChain(disk, bs, data);
    var d := LayOut(disk, bs, data, 0);
    forall x | 0 <= x < |data| ensures Bytes(d, bs, |data|)[x] == data[x] { LaidByte(disk, bs, data, x); }
  }

  // ---- the stored file -------------------------------------------------------------------------------

  /** Wherever the walk stops, it leaves sectors outside the chain alone. */
  lemma {:induction false} EraseOnly(disk: seq<Sector>, bm: Sector, limit: u16, b: u16, c: seq<u16>, x: u16)
    requires limit <= |disk| && limit <= 8 * SECTOR && IsChain(disk, b, c) && NoDup(c) && x < |disk| && x !in c
    ensures EraseWalk(disk, bm, limit, b).0[x] == disk[x]
    decreases |c|
  {
    if c != [] && b < limit {
      TailChain(disk, b, c);
      EraseOnly(disk[b := ZeroSector()], Unmark(bm, b), limit, Next(disk[b]), c[1..], x);
      assert c == [b] + c[1..];
    }
  }

  lemma ClearedSlot(s: State, cs: Chains, i: int, j: int)
    requires Filed(s, cs) && FS_MAX_SECTORS <= |s.disk| && 0 <= i < MAX_FILES && 0 <= j < MAX_FILES
    ensures var r := Cleared(s, i);
            && SlotSound(r, j, if j == i then [] else cs[j])
            && (j != i ==> Bytes(r.disk, cs[j], s.files[j].size) == Content(s, cs, j))
  {
    assert SlotSound(s, i, cs[i]) && SlotSound(s, j, cs[j]);
    if j != i {
      assert Disjoint(cs[Min(i, j)], cs[Max(i, j)]);
      var d := Cleared(s, i).disk;
      forall k | 0 <= k < |cs[j]| ensures d[cs[j][k]] == s.disk[cs[j][k]] {
        EraseOnly(s.disk, s.bitmap, FS_MAX_SECTORS, s.files[i].block, cs[i], cs[j][k]);
      }
      ChainElsewhere(s.disk, d, s.files[j].block, cs[j], s.files[j].size);
    }
  }

  lemma ClearedKeeps(s: State, cs: Chains, i: int)
    requires Filed(s, cs) && FS_MAX_SECTORS <= |s.disk| && 0 <= i < MAX_FILES
    ensures OthersKept(s, cs, Cleared(s, i), cs[i := []], i)
  {
    var m, cs' := Cleared(s, i), cs[i := []];
    forall j | 0 <= j < MAX_FILES
      ensures SlotSound(m, j, cs'[j]) && (j != i ==> Bytes(m.disk, cs[j], s.files[j].size) == Content(s, cs, j))
    {
      ClearedSlot(s, cs, i, j);
    }
    forall j, k | 0 <= j < k < MAX_FILES ensures Disjoint(cs'[j], cs'[k]) { assert Disjoint(cs[j], cs[k]); }
  }

  /** The root sector and the cached root are not part of any file. */
  lemma OtherRoot(s: State, cs: Chains, r: State)
    requires Filed(s, cs) && Sane(r) && r == s.(disk := r.disk, root := r.root) && |r.disk| == |s.disk|
    requires r.root == s.root.(fileCount := r.root.fileCount)
    requires forall x :: s.root.dataStart <= x < |s.disk| ==> r.disk[x] == s.disk[x]
    ensures OthersKept(s, cs, r, cs, -1)
  {
    forall j | 0 <= j < MAX_FILES
      ensures SlotSound(r, j, cs[j]) && Bytes(r.disk, cs[j], s.files[j].size) == Content(s, cs, j)
    {
      assert SlotSound(s, j, cs[j]);
      ChainElsewhere(s.disk, r.disk, s.files[j].block, cs[j], s.files[j].size);
    }
  }

  /**
   The tool's delete keeps every other file and every bitmap bit, so the wiped blocks leak. Its result
   is a volume the kernel can use if and only if the count was not 0.
   */
  lemma WipeKeeps(s: State, cs: Chains, i: int)
    requires Filed(s, cs) && FS_MAX_SECTORS <= |s.disk| && 0 <= i < MAX_FILES
    ensures OthersKept(s, cs, Wipe(s, i).(root := s.root), cs[i := []], i) && Wipe(s, i).bitmap == s.bitmap
    ensures Sane(Wipe(s, i)) <==> s.root.fileCount > 0
    ensures s.root.fileCount > 0 ==> OthersKept(s, cs, Wipe(s, i), cs[i := []], i)
  {
    var m, cs', r := Cleared(s, i), cs[i := []], Wipe(s, i);
    ClearedKeeps(s, cs, i);
    OtherRoot(m, cs', r.(root := s.root));
    KeptWeaken(m, cs', r.(root := s.root), cs', i);
    KeptTrans(s, cs, m, cs', r.(root := s.root), cs', i);
    if s.root.fileCount > 0 {
      OtherRoot(m, cs', r);
      KeptWeaken(m, cs', r, cs', i);
      KeptTrans(s, cs, m, cs', r, cs', i);
    }
  }

  lemma AttachSlot(s: State, cs: Chains, i: int, bs: seq<u16>, data: seq<byte>, f: FileEntry, j: int)
    requires Filed(s, cs) && 0 <= i < MAX_FILES && cs[i] == [] && Spare(s, cs, bs) && 0 <= j < MAX_FILES
    requires |bs| == BlocksFor(|data|) && data != [] && f.size == |data| && f.block == bs[0] && InDisk(s.disk, bs)
    ensures var r := s.(disk := LayOut(s.disk, bs, data, 0), files := s.files[i := f]);
            && SlotSound(r, j, if j == i then bs else cs[j])
            && (j != i ==> Bytes(r.disk, cs[j], s.files[j].size) == Content(s, cs, j))
  {
    if j == i { LaidChain(s.disk, bs, data); } else { AttachOther(s, cs, bs, data, j); }
  }

  lemma AttachApart(s: State, cs: Chains, i: int, bs: seq<u16>, cs': Chains)
    requires Filed(s, cs) && 0 <= i < MAX_FILES && Spare(s, cs, bs) && cs' == cs[i := bs]
    ensures forall j, k :: 0 <= j < k < MAX_FILES ==> Disjoint(cs'[j], cs'[k])
  {
    forall j, k | 0 <= j < k < MAX_FILES ensures Disjoint(cs'[j], cs'[k]) {
      assert Disjoint(cs[j], cs[k]) && Disjoint(bs, cs[j]) && Disjoint(bs, cs[k]);
    }
  }

  lemma AttachFiled(s: State, cs: Chains, i: int, bs: seq<u16>, data: seq<byte>, f: FileEntry)
    requires Filed(s, cs) && 0 <= i < MAX_FILES && cs[i] == [] && Spare(s, cs, bs)
    requires |bs| == BlocksFor(|data|) && data != [] && f.size == |data| && f.block == bs[0] && InDisk(s.disk, bs)
    ensures Filed(s.(disk := LayOut(s.disk, bs, data, 0), files := s.files[i := f]), cs[i := bs])
  {
    var r, cs' := s.(disk := LayOut(s.disk, bs, data, 0), files := s.files[i := f]), cs[i := bs];
    forall j | 0 <= j < MAX_FILES ensures SlotSound(r, j, cs'[j]) { AttachSlot(s, cs, i, bs, data, f, j); }
    AttachApart(s, cs, i, bs, cs');
  }

  /** Entry `i` given a chain of spare blocks that holds its bytes. */
  lemma AttachKeeps(s: State, cs: Chains, i: int, bs: seq<u16>, data: seq<byte>, f: FileEntry)
    requires Filed(s, cs) && 0 <= i < MAX_FILES && cs[i] == [] && Spare(s, cs, bs)
    requires |bs| == BlocksFor(|data|) && data != [] && f.size == |data| && f.block == bs[0] && InDisk(s.disk, bs)
    ensures var r := s.(disk := LayOut(s.disk, bs, data, 0), files := s.files[i := f]);
            OthersKept(s, cs, r, cs[i := bs], i) && Content(r, cs[i := bs], i) == data
  {
    var r, cs' := s.(disk := LayOut(s.disk, bs, data, 0), files := s.files[i := f]), cs[i := bs];
    AttachFiled(s, cs, i, bs, data, f);
    forall j | 0 <= j < MAX_FILES && j != i ensures Kept(s, cs, r, cs', j) { AttachSlot(s, cs, i, bs, data, f, j); }
    LaidOutFile(s.disk, bs, data);
  }

  lemma AttachOther(s: State, cs: Chains, bs: seq<u16>, data: seq<byte>, j: int)
    requires Filed(s, cs) && Spare(s, cs, bs) && |bs| == BlocksFor(|data|) && InDisk(s.disk, bs) && 0 <= j < MAX_FILES
    ensures var d := LayOut(s.disk, bs, data, 0);
            && SlotSound(s, j, cs[j]) && IsChain(d, s.files[j].block, cs[j])
            && Bytes(d, cs[j], s.files[j].size) == Content(s, cs, j)
  {
    assert SlotSound(s, j, cs[j]) && Disjoint(bs, cs[j]);
    var d := LayOut(s.disk, bs, data, 0);
    forall k | 0 <= k < |cs[j]| ensures d[cs[j][k]] == s.disk[cs[j][k]] {
      LaidElsewhere(s.disk, bs, data, 0, cs[j][k]);
    }
    ChainElsewhere(s.disk, d, s.files[j].block, cs[j], s.files[j].size);
  }

  /**
   Main result: storing succeeds exactly when enough blocks are free; the file then holds the data
   byte for byte, and every other file keeps its bytes whether it succeeds or not.
   */
  lemma StoreHolds(s: State, cs: Chains, i: int, data: seq<byte>) returns (cs': Chains)
    requires Filed(s, cs) && FS_MAX_SECTORS <= |s.disk| && 0 <= i < MAX_FILES && 1 <= |data| <= 16384
    ensures var (r, ok) := Store(s, i, data);
            && (ok <==> BlocksFor(|data|) <= FreeBlocks(s))
            && OthersKept(s, cs, r, cs', i) && (ok ==> Content(r, cs', i) == data)
  {
    cs' := cs[i := []];
    WipeKeeps(s, cs, i);
    var s2 := Wipe(s, i).(root := s.root);
    AllocManySpare(s2, cs', BlocksFor(|data|), [], AllocMany(s2, BlocksFor(|data|), []));
    var (s3, bs, ok) := AllocMany(s2, BlocksFor(|data|), []);
    KeptWeaken(s2, cs', s3, cs', i);
    KeptTrans(s, cs, s2, cs', s3, cs', i);
    if ok {
      var f := s.files[i].(size := |data|).(block := bs[0], blockSize := |bs|);
      AttachKeeps(s3, cs', i, bs, data, f);
      KeptTrans(s, cs, s3, cs', Store(s, i, data).0, cs'[i := bs], i);
      cs' := cs'[i := bs];
    }
  }

  lemma KeptWeaken(s: State, cs: Chains, r: State, cs': Chains, i: int)
    requires OthersKept(s, cs, r, cs', -1)
    ensures OthersKept(s, cs, r, cs', i)
  {
  }

  /** The tool's loader: all slots are searched, and sectors are bounded by the format's size. */
  function LoadToMemory(s: State, name: CString): LoadResult
    requires Sane(s) && FS_MAX_SECTORS <= |s.disk|
  {
    var i := FindFrom(s.files, name, 0, MAX_FILES);
    if i == -1 then NotFound else LoadLoop(s, FS_MAX_SECTORS, s.files[i].block, Int16(s.files[i].size))
  }

  lemma {:induction false} FoundInMore(files: seq<FileEntry>, name: CString, i: nat, n: nat, m: nat)
    requires n <= m <= |files| && FindFrom(files, name, i, n) != -1
    ensures FindFrom(files, name, i, m) == FindFrom(files, name, i, n)
    decreases n - i
  {
    if !SameName(name, files[i].name) { FoundInMore(files, name, i + 1, n, m); }
  }

  /** Storing changes no name and no count. */
  lemma StoreNames(s: State, i: int, data: seq<byte>)
    requires Sane(s) && FS_MAX_SECTORS <= |s.disk| && 0 <= i < MAX_FILES && 1 <= |data| <= 16384
    ensures var r := Store(s, i, data).0;
            && r.root == s.root && |r.disk| == |s.disk|
            && forall j :: 0 <= j < MAX_FILES ==> r.files[j].name == s.files[j].name
  {
  }

  /** A file of a mounted volume, as both loaders read it. */
  lemma BothLoad(m: State, cs: Chains, i: int, name: CString)
    requires Filed(m, cs) && FindFile(m, name) == i && i != -1 && m.files[i].size < 0x8000
    requires m.root.total <= FS_MAX_SECTORS <= |m.disk|
    ensures LoadExecutable(m, name) == LoadToMemory(m, name) == Loaded(Content(m, cs, i))
  {
    LoadReturns(m, cs, name);
    FoundInMore(m.files, name, 0, m.root.fileCount, MAX_FILES);
    LoadFrom(m, cs, i, 0, FS_MAX_SECTORS);
  }

  lemma StoredRemounts(s: State, cs: Chains, i: int, data: seq<byte>) returns (m: State, cs': Chains)
    requires Filed(s, cs) && FS_MAX_SECTORS <= |s.disk| && 0 <= i < MAX_FILES && 1 <= |data| <= 16384
    requires BlocksFor(|data|) <= FreeBlocks(s)
    ensures var d := WriteChanges(Store(s, i, data).0).disk;
            DecodeRoot(d[0]) == s.root && Geometry(d, s.root) && Mount(d) == Mounted(m)
    ensures m.root == s.root && |m.disk| == |s.disk| && m.files == Store(s, i, data).0.files
    ensures Filed(m, cs') && Content(m, cs', i) == data
  {
    var r := Store(s, i, data).0;
    cs' := StoreHolds(s, cs, i, data);
    StoreNames(s, i, data);
    RemountRestores(r);
    SyncKeeps(r, cs');
    m := WriteChanges(r).(fds := BootFds());
    FdsAside(WriteChanges(r), cs', BootFds());
    assert Kept(r, cs', WriteChanges(r), cs', i);
  }

  /** Main result: what the tool stored and synced, the kernel and the tool load once they have mounted the disk. */
  lemma StoredLoads(s: State, cs: Chains, i: int, data: seq<byte>, name: CString) returns (m: State)
    requires Filed(s, cs) && s.root.total <= FS_MAX_SECTORS <= |s.disk| && 1 <= |data| <= 16384
    requires BlocksFor(|data|) <= FreeBlocks(s) && FindFile(s, name) == i && i != -1
    ensures var d := WriteChanges(Store(s, i, data).0).disk;
            DecodeRoot(d[0]) == s.root && Geometry(d, s.root) && Mount(d) == Mounted(m)
    ensures Sane(m) && FS_MAX_SECTORS <= |m.disk|
    ensures LoadExecutable(m, name) == LoadToMemory(m, name) == Loaded(data)
  {
    var cs';
    m, cs' := StoredRemounts(s, cs, i, data);
    StoreNames(s, i, data);
    SameNamesFind(s.files, m.files, name, 0, s.root.fileCount);
    assert m.files[i].size == |data| by { assert |Content(m, cs', i)| == |data|; }
    BothLoad(m, cs', i, name);
  }

  /** Which sectors the walk zeroes does not depend on the bitmap. */
  lemma {:induction false} WipeIgnoresMarks(disk: seq<Sector>, a: Sector, b: Sector, total: u16, x: u16)
    requires total <= |disk| && total <= 8 * SECTOR
    ensures EraseWalk(disk, a, total, x).0 == EraseWalk(disk, b, total, x).0
    decreases Linked(disk, total), if x == 0 then 0 else 1
  {
    if 0 < x < total {
      LinkedZeroed(disk, x, total);
      WipeIgnoresMarks(disk[x := ZeroSector()], Unmark(a, x), Unmark(b, x), total, Next(disk[x]));
    }
  }

  // ---- the tool's loops, on the same cached sectors as the kernel's -------------------------------------

  method DeleteEntry(k: Kernel, i: int)
    requires k.Valid() && FS_MAX_SECTORS <= |k.disk| && 0 <= i < MAX_FILES
    modifies k
    ensures k.State() == Wipe(old(k.State()), i)
  {
    var block: u16 := k.files[i].block;
    ghost var s := k.State();
    while 0 < block < FS_MAX_SECTORS
      invariant k.State() == s.(disk := k.disk) && |k.disk| == |s.disk|
      invariant EraseWalk(s.disk, s.bitmap, FS_MAX_SECTORS, s.files[i].block).0
             == EraseWalk(k.disk, s.bitmap, FS_MAX_SECTORS, block).0
      decreases Linked(k.disk, FS_MAX_SECTORS), if block == 0 then 0 else 1
    {
      k.DiskRead(block);
      var next := Next(k.tempbuf);
      LinkedZeroed(k.disk, block, FS_MAX_SECTORS);
      WipeIgnoresMarks(k.disk[block := ZeroSector()], Unmark(s.bitmap, block), s.bitmap, FS_MAX_SECTORS, next);
      k.DiskWrite(ZeroSector(), block);
      block := next;
    }
    k.files := k.files[i := Emptied(k.files[i])];
    k.root := k.root.(fileCount := Fewer(k.root.fileCount));
    k.WriteChanges();
  }

  method CountBlocks(size: nat) returns (n: nat)
    requires size <= 16384
    ensures n == BlocksFor(size)
  {
    var r: int := size;
    n := 0;
    while r > 0
      invariant r == size - PAYLOAD * n && r > -PAYLOAD
      decreases r
    {
      r := r - PAYLOAD;
      n := n + 1;
    }
  }

  /** The used byte of the block before, then one more block. */
  method AllocOne(k: Kernel, bs: seq<u16>, n: nat) returns (ok: bool, now: seq<u16>)
    requires k.Valid() && n > 0 && InDisk(k.disk, bs)
    modifies k
    ensures k.Valid() && InDisk(k.disk, now)
    ensures !ok ==> Same(AllocMany(old(k.State()), n, bs), (k.State(), now, false))
    ensures ok ==> Same(AllocMany(old(k.State()), n, bs), AllocMany(k.State(), n - 1, now))
  {
    AllocNext(k.State(), n, bs);
    if |bs| > 0 {
      k.DiskWrite(k.disk[bs[|bs| - 1]][0 := 1], bs[|bs| - 1]);
    }
    var b := k.AllocBlock();
    return b != 0, if b != 0 then bs + [b] else bs;
  }

  /** The pre-allocating loop: all block numbers first. */
  method AllocBlocks(k: Kernel, n: nat) returns (bs: seq<u16>, ok: bool)
    requires k.Valid()
    modifies k
    ensures k.Valid() && (k.State(), bs, ok) == AllocMany(old(k.State()), n, [])
  {
    var left := n;
    bs := [];
    while left > 0
      invariant k.Valid() && InDisk(k.disk, bs)
      invariant Same(AllocMany(old(k.State()), n, []), AllocMany(k.State(), left, bs))
    {
      ok, bs := AllocOne(k, bs, left);
      if !ok {
        return;
      }
      left := left - 1;
    }
    return bs, true;
  }

  /** The writing loop: payload and pointer of every block. */
  method WriteBlocks(k: Kernel, bs: seq<u16>, data: seq<byte>)
    requires |bs| == BlocksFor(|data|) && InDisk(k.disk, bs)
    modifies k
    ensures k.State() == old(k.State()).(disk := LayOut(old(k.disk), bs, data, 0))
  {
    var at := 0;
    ghost var s := k.State();
    while at < |bs|
      invariant 0 <= at <= |bs| && k.State() == s.(disk := k.disk) && |k.disk| == |s.disk|
      invariant LayOut(s.disk, bs, data, 0) == LayOut(k.disk, bs, data, at)
    {
      var next := if at < |bs| - 1 then bs[at + 1] else 0;
      k.DiskWrite(Image(next, Chunk(data, at)), bs[at]);
      at := at + 1;
    }
  }

  /** The old file goes, and the count comes back. */
  method ClearSlot(k: Kernel, i: int)
    requires k.Valid() && FS_MAX_SECTORS <= |k.disk| && 0 <= i < MAX_FILES
    modifies k
    ensures k.Valid() && k.State() == Wipe(old(k.State()), i).(root := old(k.root))
  {
    DeleteEntry(k, i);
    k.root := k.root.(fileCount := (k.root.fileCount + 1) as int % 0x100);
  }

  method SaveToDisk(k: Kernel, i: int, data: seq<byte>) returns (ok: bool)
    requires k.Valid() && FS_MAX_SECTORS <= |k.disk| && 0 <= i < MAX_FILES && 1 <= |data| <= 16384
    modifies k
    ensures k.Valid() && (k.State(), ok) == Store(old(k.State()), i, data)
  {
    var temp := k.files[i].(size := |data|);
    ClearSlot(k, i);
    var n := CountBlocks(|data|);
    var bs;
    bs, ok := AllocBlocks(k, n);
    if ok {
      WriteBlocks(k, bs, data);
      k.files := k.files[i := temp.(block := bs[0], blockSize := n)];
    }
  }

  method FindSlot(k: Kernel, name: CString) returns (i: int)
    requires k.Valid()
    ensures i == FindFrom(k.files, name, 0, MAX_FILES)
  {
    i := 0;
    while i < MAX_FILES && !SameName(name, k.files[i].name)
      invariant 0 <= i <= MAX_FILES && FindFrom(k.files, name, 0, MAX_FILES) == FindFrom(k.files, name, i, MAX_FILES)
      decreases MAX_FILES - i
    {
      i := i + 1;
    }
    if i == MAX_FILES { i := -1; }
  }

  method LoadFile(k: Kernel, name: CString) returns (r: LoadResult)
    requires k.Valid() && FS_MAX_SECTORS <= |k.disk|
    modifies k`tempbuf
    ensures k.State() == old(k.State()) && r == LoadToMemory(k.State(), name)
  {
    var i := FindSlot(k, name);
    if i == -1 {
      return NotFound;
    }
    var remaining, sector: u16 := Int16(k.files[i].size), k.files[i].block;
    var mem: seq<byte> := [];
    ghost var all := LoadLoop(k.State(), FS_MAX_SECTORS, sector, remaining);
    while remaining != 0 && 0 < sector < FS_MAX_SECTORS
      invariant k.State() == old(k.State())
      invariant remaining < 0 ==> mem == []
      invariant match LoadLoop(k.State(), FS_MAX_SECTORS, sector, remaining)
                case Loaded(rest) => all == Loaded(mem + rest)
                case other => all == other
      decreases if remaining < 0 then 0 else remaining
    {
      if remaining < 0 {
        return Overrun;
      }
      var n := if remaining > PAYLOAD then PAYLOAD else remaining;
      k.DiskRead(sector);
      mem := mem + k.tempbuf[HEADER..HEADER + n];
      remaining := remaining - n;
      sector := Next(k.tempbuf);
    }
    assert mem + [] == mem;
    return Loaded(mem);
  }
}
