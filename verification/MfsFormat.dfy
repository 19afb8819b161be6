/** The on-disk format: data sectors, the block bitmap, the root sector and the file table. */
module MfsFormat {
  import opened Machine

  const SECTOR := 512
  const HEADER := 4
  const PAYLOAD := 508
  const NAME_LEN := 12
  const MAX_FILES := 24
  const ENTRY := 21
  const CHECKSUM: u16 := 0xABCD

  type Sector = s: seq<byte> | |s| == 512 witness seq(512, _ => 0)

  // ---- data sectors -------------------------------------------------------

  function ZeroSector(): (s: Sector)
    ensures Next(s) == 0
  {
    seq(512, _ => 0)
  }

  /** A fresh data block: marked used, next pointer 0, payload all zero. */
  function BlankBlock(): (s: Sector)
    ensures Next(s) == 0 && s[0] == 1 && forall i :: HEADER <= i < SECTOR ==> s[i] == 0
  {
    seq(512, i => if i == 0 then 1 else 0)
  }

  /** The little-endian pointer in bytes 1 and 2. */
  function Next(s: Sector): u16 { s[1] as int + 256 * (s[2] as int) }

  function SetNext(s: Sector, b: u16): (r: Sector)
    ensures Next(r) == b
    ensures r[HEADER..] == s[HEADER..] && r[0] == s[0] && r[3] == s[3]
  {
    s[1 := Lo(b)][2 := Hi(b)]
  }

  /** Copies `data` into the payload at `off`. */
  function Patch(s: Sector, off: nat, data: seq<byte>): (r: Sector)
    requires off + |data| <= PAYLOAD
    ensures r[..HEADER] == s[..HEADER] && Next(r) == Next(s)
    ensures forall i :: HEADER <= i < SECTOR ==>
              r[i] == if HEADER + off <= i < HEADER + off + |data| then data[i - HEADER - off] else s[i]
  {
    s[..HEADER + off] + data + s[HEADER + off + |data|..]
  }

  // ---- the block bitmap: one bit per sector, eight to a byte -----------------

  predicate Marked(bm: Sector, b: u16)
    requires b < 8 * SECTOR
  {
    TestBit(bm[b / 8], b % 8)
  }

  function Mark(bm: Sector, b: u16): (r: Sector)
    requires b < 8 * SECTOR
  {
    BitBound(bm[b / 8], b % 8, 8);
    assert Pow2(8) == 256;
    bm[b / 8 := SetBit(bm[b / 8], b % 8)]
  }

  function Unmark(bm: Sector, b: u16): (r: Sector)
    requires b < 8 * SECTOR
  {
    BitBound(bm[b / 8], b % 8, 8);
    assert Pow2(8) == 256;
    bm[b / 8 := ClearBit(bm[b / 8], b % 8)]
  }

  /** Marking one block changes the answer for that block alone. */
  lemma MarkMarks(bm: Sector, b: u16, x: u16)
    requires b < 8 * SECTOR && x < 8 * SECTOR
    ensures Marked(Mark(bm, b), x) <==> (x == b || Marked(bm, x))
  {
    SetBitTest(bm[b / 8], b % 8, x % 8);
  }

  lemma UnmarkClears(bm: Sector, b: u16, x: u16)
    requires b < 8 * SECTOR && x < 8 * SECTOR
    ensures Marked(Unmark(bm, b), x) <==> (x != b && Marked(bm, x))
  {
    ClearBitTest(bm[b / 8], b % 8, x % 8);
  }

  // ---- the root sector -------------------------------------------------------

  type Bytes3 = s: seq<byte> | |s| == 3 witness [0, 0, 0]
  type RootRest = s: seq<byte> | |s| == 496 witness seq(496, _ => 0)
  type Name = s: seq<byte> | |s| == 12 witness seq(12, _ => 0)
  type TableRest = s: seq<byte> | |s| == 8 witness seq(8, _ => 0)

  datatype Root = Root(
    jmp: Bytes3,
    checksum: u16,
    total: u16,
    bitmapSector: u16,
    fentrySector: u16,
    dataStart: u16,
    maxFiles: u16,
    fileCount: byte,
    rest: RootRest)

  function EncodeWord(w: u16): seq<byte> { [Lo(w), Hi(w)] }

  function DecodeWord(s: seq<byte>, at: nat): u16
    requires at + 2 <= |s|
  {
    s[at] as int + 256 * (s[at + 1] as int)
  }

  function EncodeRoot(r: Root): Sector {
    r.jmp + EncodeWord(r.checksum) + EncodeWord(r.total) + EncodeWord(r.bitmapSector)
    + EncodeWord(r.fentrySector) + EncodeWord(r.dataStart) + EncodeWord(r.maxFiles)
    + [r.fileCount] + r.rest
  }

  function DecodeRoot(s: Sector): Root {
    Root(s[..3], DecodeWord(s, 3), DecodeWord(s, 5), DecodeWord(s, 7), DecodeWord(s, 9),
         DecodeWord(s, 11), DecodeWord(s, 13), s[15], s[16..])
  }

  lemma RootRoundTrip(r: Root)
    ensures DecodeRoot(EncodeRoot(r)) == r
  {
    var s := EncodeRoot(r);
    assert s[..3] == r.jmp && s[16..] == r.rest;
  }

  // ---- the file table ----------------------------------------------------------

  datatype FileEntry = FileEntry(
    used: byte,
    flags: byte,
    id: byte,
    name: Name,
    size: u16,
    blockSize: u16,
    block: u16)

  function ZeroEntry(): FileEntry { FileEntry(0, 0, 0, seq(12, _ => 0), 0, 0, 0) }

  function EncodeEntry(f: FileEntry): (s: seq<byte>)
    ensures |s| == ENTRY
  {
    [f.used, f.flags, f.id] + f.name + EncodeWord(f.size) + EncodeWord(f.blockSize) + EncodeWord(f.block)
  }

  function DecodeEntry(s: seq<byte>): FileEntry
    requires |s| == ENTRY
  {
    FileEntry(s[0], s[1], s[2], s[3..15], DecodeWord(s, 15), DecodeWord(s, 17), DecodeWord(s, 19))
  }

  function EncodeEntries(files: seq<FileEntry>): (s: seq<byte>)
    ensures |s| == ENTRY * |files|
  {
    if files == [] then [] else EncodeEntry(files[0]) + EncodeEntries(files[1..])
  }

  /** As many whole entries as fit. */
  function DecodeEntries(s: seq<byte>): (files: seq<FileEntry>)
    ensures |files| == |s| / ENTRY
  {
    if |s| < ENTRY then [] else [DecodeEntry(s[..ENTRY])] + DecodeEntries(s[ENTRY..])
  }

  function EncodeTable(files: seq<FileEntry>, rest: TableRest): Sector
    requires |files| == MAX_FILES
  {
    EncodeEntries(files) + rest
  }

  function DecodeTable(s: Sector): (seq<FileEntry>, TableRest) {
    (DecodeEntries(s), s[ENTRY * MAX_FILES..])
  }

  lemma {:induction false} EntryAt(s: seq<byte>, i: nat)
    requires ENTRY * (i + 1) <= |s|
    ensures i < |DecodeEntries(s)| && DecodeEntries(s)[i] == DecodeEntry(s[ENTRY * i..ENTRY * i + ENTRY])
    decreases i
  {
    if i > 0 {
      EntryAt(s[ENTRY..], i - 1);
      assert s[ENTRY..][ENTRY * (i - 1)..ENTRY * i] == s[ENTRY * i..ENTRY * i + ENTRY];
    }
  }

  lemma EntryRoundTrip(f: FileEntry)
    ensures DecodeEntry(EncodeEntry(f)) == f
  {
    assert EncodeEntry(f)[3..15] == f.name;
  }

  lemma {:induction false} EntriesRoundTrip(files: seq<FileEntry>, rest: seq<byte>)
    requires |rest| < ENTRY
    ensures DecodeEntries(EncodeEntries(files) + rest) == files
  {
    var s := EncodeEntries(files) + rest;
    if files != [] {
      assert s[..ENTRY] == EncodeEntry(files[0]);
      assert s[ENTRY..] == EncodeEntries(files[1..]) + rest;
      EntryRoundTrip(files[0]);
      EntriesRoundTrip(files[1..], rest);
    }
  }

  lemma TableRoundTrip(files: seq<FileEntry>, rest: TableRest)
    requires |files| == MAX_FILES
    ensures DecodeTable(EncodeTable(files, rest)) == (files, rest)
  {
    EntriesRoundTrip(files, rest);
    assert EncodeTable(files, rest)[ENTRY * MAX_FILES..] == rest;
  }

  // ---- file names ----------------------------------------------------------------

  /** The characters of a C string, without its terminating NUL. */
  type CString = s: seq<byte> | 0 !in s witness []

  /** `strncmp(s, name, n) == 0`, comparing from character `j`. */
  predicate SameFrom(s: CString, name: Name, j: nat)
    requires j <= NAME_LEN
    decreases NAME_LEN - j
  {
    j == NAME_LEN ||
    var c := if j < |s| then s[j] else 0;
    c == name[j] && (c == 0 || SameFrom(s, name, j + 1))
  }

  predicate SameName(s: CString, name: Name) { SameFrom(s, name, 0) }

  /** `strncpy(name, s, 11)`: eleven bytes are written, NUL-padded; the twelfth stays. */
  function CopyName(name: Name, s: CString): Name {
    seq(12, j requires 0 <= j < 12 => if j == 11 then name[11] else if j < |s| then s[j] else 0)
  }

  /** A name stored over a cleared slot is found again exactly when it has at most 11 characters. */
  lemma StoredNameFound(name: Name, s: CString)
    requires name[11] == 0
    ensures SameName(s, CopyName(name, s)) <==> |s| <= 11
  {
    StoredNameFoundFrom(name, s, 0);
  }

  lemma {:induction false} StoredNameFoundFrom(name: Name, s: CString, j: nat)
    requires name[11] == 0 && j <= 11 && j <= |s|
    ensures SameFrom(s, CopyName(name, s), j) <==> |s| <= 11
    decreases 12 - j
  {
    if j < 11 && j < |s| { StoredNameFoundFrom(name, s, j + 1); }
  }
}
