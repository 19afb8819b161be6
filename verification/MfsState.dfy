/**
 The filesystem as a transition system: one value holds the disk, the cached root, bitmap and
 file table, and the descriptor table; each kernel entry point is a function on that value.
 The class in MfsKernel.dfy performs the same steps in place and is proved equal to them.
 */
module MfsState {
  import opened Machine
  import opened MfsFormat

  const FD_MAX := 8
  const SEEK_SET := 1
  const SEEK_CUR := 2
  const SEEK_END := 3

  datatype FdMode = NoAccess | ReadOnly | WriteOnly | ReadWrite

  /** A descriptor; an open file's `file` is a slot of the file table. */
  datatype Fd =
    | NoFd
    | Stdin
    | Stdout
    | Stderr
    | FileFd(mode: FdMode, pos: u16, cur: u16, prev: u16, off: u16, file: int)
  {
    predicate Readable() { FileFd? && mode in {ReadOnly, ReadWrite} }

    predicate Writable() { FileFd? && mode in {WriteOnly, ReadWrite} }
  }

  datatype State = State(
    disk: seq<Sector>,
    bitmap: Sector,
    root: Root,
    files: seq<FileEntry>,
    tableRest: TableRest,
    fds: seq<Fd>)

  // ---- what makes a state one the code can run on ------------------------------------

  /** The layout `mfs_format` writes: root, bitmap and table sectors, then the data region. */
  predicate Regions(disk: seq<Sector>, root: Root) {
    && root.total <= |disk| && root.total <= 8 * SECTOR
    && 0 < root.bitmapSector < root.dataStart
    && 0 < root.fentrySector < root.dataStart
    && root.bitmapSector != root.fentrySector
    && root.dataStart <= root.total
  }

  predicate Geometry(disk: seq<Sector>, root: Root) {
    && Regions(disk, root)
    && root.maxFiles <= MAX_FILES
    && root.fileCount <= root.maxFiles
    && root.checksum == CHECKSUM
  }

  predicate FdSane(e: Fd, total: u16) {
    e.FileFd? ==>
      && 0 <= e.file < MAX_FILES
      && e.prev < total
      && (0 < e.cur < total ==> e.off < PAYLOAD)
  }

  predicate Sane(s: State) {
    && Geometry(s.disk, s.root)
    && |s.files| == MAX_FILES
    && |s.fds| == FD_MAX
    && forall d :: 0 <= d < FD_MAX ==> FdSane(s.fds[d], s.root.total)
  }

  predicate IsFileFd(s: State, fd: int) {
    0 <= fd < |s.fds| && s.fds[fd].FileFd?
  }

  predicate IsData(root: Root, b: u16) { root.dataStart <= b < root.total }

  // ---- allocation ------------------------------------------------------------------------

  /** The lowest unmarked block in [b, total), or 0. */
  function FirstFree(bm: Sector, b: u16, total: u16): (r: u16)
    requires total <= 8 * SECTOR
    ensures r != 0 ==> b <= r < total && !Marked(bm, r) && forall x: u16 :: b <= x < r ==> Marked(bm, x)
    ensures r == 0 && b > 0 ==> forall x: u16 :: b <= x < total ==> Marked(bm, x)
    decreases total - b
  {
    if b >= total then 0 else if !Marked(bm, b) then b else FirstFree(bm, b + 1, total)
  }

  function AllocBlock(s: State): (r: (State, u16))
    requires Sane(s)
    ensures Sane(r.0)
  {
    var b := FirstFree(s.bitmap, s.root.dataStart, s.root.total);
    if b == 0 then (s, 0) else (s.(bitmap := Mark(s.bitmap, b)), b)
  }

  // ---- name lookup -------------------------------------------------------------------------

  /** Slots [i, n) only: the code scans `filecount` slots. */
  function FindFrom(files: seq<FileEntry>, name: CString, i: nat, n: nat): (r: int)
    requires n <= |files|
    ensures r == -1 || (i <= r < n && SameName(name, files[r].name))
    ensures forall j :: i <= j < (if r == -1 then n else r) ==> !SameName(name, files[j].name)
    decreases n - i
  {
    if i >= n then -1
    else if SameName(name, files[i].name) then i
    else FindFrom(files, name, i + 1, n)
  }

  function FindFile(s: State, name: CString): int
    requires Sane(s)
  {
    FindFrom(s.files, name, 0, s.root.fileCount)
  }

  function FreeSlot(files: seq<FileEntry>, i: nat, n: nat): (r: nat)
    requires i <= n <= |files|
    ensures i <= r <= n
    ensures r < n ==> files[r].used == 0
    ensures forall j :: i <= j < r ==> files[j].used != 0
    decreases n - i
  {
    if i >= n || files[i].used == 0 then i else FreeSlot(files, i + 1, n)
  }

  // ---- write_changes ------------------------------------------------------------------------

  function WriteChanges(s: State): (r: State)
    requires Regions(s.disk, s.root) && |s.files| == MAX_FILES
    ensures Sane(s) ==> Sane(r)
  {
    s.(disk := s.disk[0 := EncodeRoot(s.root)]
                     [s.root.bitmapSector := s.bitmap]
                     [s.root.fentrySector := EncodeTable(s.files, s.tableRest)])
  }

  // ---- open -------------------------------------------------------------------------------------

  predicate Creat(flags: u16) { TestBit(flags, 9) }

  predicate Append(flags: u16) { TestBit(flags, 3) }

  function Access(flags: u16): int { flags % 4 }

  /** O_CREAT is 0x200 and O_APPEND is 0x08. */
  lemma FlagBits(flags: u16)
    ensures Creat(flags) <==> flags / 0x200 % 2 == 1
    ensures Append(flags) <==> flags / 8 % 2 == 1
  {
    BitOfQuotient(flags, 9);
    BitOfQuotient(flags, 3);
    assert Pow2(3) == 8 && Pow2(9) == 8 * Pow2(6) && Pow2(6) == 64;
  }

  /** Slot `i` becomes a new empty file whose only block is `b`. */
  function AddFile(s: State, i: int, b: u16, name: CString, flags: u16): (r: State)
    requires Sane(s) && 0 <= i < MAX_FILES && IsData(s.root, b) && s.root.fileCount < s.root.maxFiles
    ensures Sane(r)
  {
    var f := s.files[i];
    s.(files := s.files[i := FileEntry(1, flags % 256, f.id, CopyName(f.name, name), 0, 0, b)],
       disk := s.disk[b := BlankBlock()],
       root := s.root.(fileCount := s.root.fileCount + 1))
  }

  /** The creating half of `mfs_open`: the new slot, or -1. */
  function Create(s: State, name: CString, flags: u16): (r: (State, int))
    requires Sane(s)
    ensures Sane(r.0) && -1 <= r.1 < MAX_FILES
  {
    var (s1, b) := AllocBlock(s);
    if b == 0 || s1.root.fileCount >= s1.root.maxFiles then (s1, -1)
    else
      var i: int := FreeSlot(s1.files, 0, s1.root.maxFiles);
      if i == s1.root.maxFiles then (s1, -1)
      else (WriteChanges(AddFile(s1, i, b, name, flags)), i)
  }

  function FirstFd(fds: seq<Fd>, i: nat): (r: int)
    ensures r == -1 || (i <= r < |fds| && fds[r] == NoFd)
    decreases |fds| - i
  {
    if i >= |fds| then -1 else if fds[i] == NoFd then i else FirstFd(fds, i + 1)
  }

  /** The descriptor `mfs_open` builds. Access mode 3 leaves `pos` as found on the stack (`junk`). */
  function NewFd(f: FileEntry, slot: int, flags: u16, junk: u16): (e: Fd)
    ensures e.FileFd?
  {
    var acc := Access(flags);
    FileFd(if acc == 0 then ReadOnly else if acc == 1 then WriteOnly else if acc == 2 then ReadWrite else NoAccess,
           if acc == 3 then junk else if acc != 0 && Append(flags) then f.size else 0,
           f.block, 0, 0, slot)
  }

  function Open(s: State, name: CString, flags: u16, junk: u16): (r: (State, int))
    requires Sane(s)
    ensures Sane(r.0)
  {
    var found := FindFile(s, name);
    var made := if found == -1 && Creat(flags) then Create(s, name, flags) else (s, found);
    var s1, slot := made.0, made.1;
    if slot == -1 then (s1, -1)
    else
      var fd := FirstFd(s1.fds, 3);
      if fd == -1 then (s1, -1)
      else (s1.(fds := s1.fds[fd := NewFd(s1.files[slot], slot, flags, junk)]), fd)
  }

  // ---- close -------------------------------------------------------------------------------------

  /** `fd_close`, which calls `mfs_close` once for an open file. */
  function Close(s: State, fd: int): (r: (State, int))
    requires Sane(s)
    ensures Sane(r.0)
  {
    if fd < 3 || fd >= FD_MAX then (s, 1)
    else
      var s1 := if s.fds[fd].FileFd? then WriteChanges(s) else s;
      (s1.(fds := s1.fds[fd := NoFd]), 0)
  }

  /** `mfs_close` called by itself. */
  function CloseFile(s: State, fd: int): (r: (State, int))
    requires Sane(s)
    ensures Sane(r.0)
  {
    if fd < 0 || fd >= FD_MAX then (s, -1) else Close(s, fd)
  }

  // ---- read --------------------------------------------------------------------------------------

  predicate AtBlock(s: State, e: Fd) { e.FileFd? && 0 < e.cur < s.root.total }

  /** How many bytes one round of the read loop copies. */
  function ReadSpan(s: State, e: Fd, count: nat): (n: nat)
    requires Sane(s) && FdSane(e, s.root.total) && e.FileFd?
    requires AtBlock(s, e) && e.pos < s.files[e.file].size && count > 0
    ensures 0 < n <= count && e.off + n <= PAYLOAD && e.pos + n <= s.files[e.file].size
  {
    Min(Min(count, PAYLOAD - e.off), s.files[e.file].size - e.pos)
  }

  /** The cursor after `n` bytes of the current block; `prev` is left alone. */
  function ReadAdvance(s: State, e: Fd, n: nat): (r: Fd)
    requires Sane(s) && AtBlock(s, e) && e.off + n <= PAYLOAD && e.pos + n < 0x1_0000
    ensures r.FileFd?
  {
    if e.off + n >= PAYLOAD then e.(pos := e.pos + n, off := 0, cur := Next(s.disk[e.cur]))
    else e.(pos := e.pos + n, off := e.off + n)
  }

  function ReadLoop(s: State, e: Fd, count: nat): (r: (Fd, seq<byte>))
    requires Sane(s) && FdSane(e, s.root.total) && e.FileFd?
    ensures FdSane(r.0, s.root.total) && r.0.FileFd? && r.0.file == e.file
    ensures |r.1| <= count
    decreases count
  {
    if count == 0 || !AtBlock(s, e) || e.pos >= s.files[e.file].size then (e, [])
    else
      var n := ReadSpan(s, e, count);
      var chunk := s.disk[e.cur][HEADER + e.off..HEADER + e.off + n];
      var (e', rest) := ReadLoop(s, ReadAdvance(s, e, n), count - n);
      (e', chunk + rest)
  }

  /** `ReadFailed` stands for the return value -1. */
  datatype ReadResult = ReadFailed | ReadBytes(bytes: seq<byte>)

  function Read(s: State, fd: int, count: u16): (r: (State, ReadResult))
    requires Sane(s)
    ensures Sane(r.0)
  {
    if !IsFileFd(s, fd) || !s.fds[fd].Readable() then (s, ReadFailed)
    else
      var (e, bytes) := ReadLoop(s, s.fds[fd], count);
      (s.(fds := s.fds[fd := e]), ReadBytes(bytes))
  }

  // ---- write -------------------------------------------------------------------------------------

  /** A blank block `b` goes after the previous block, or becomes the file's first block. */
  function LinkBlock(s: State, fd: int, b: u16): (r: State)
    requires Sane(s) && IsFileFd(s, fd) && IsData(s.root, b)
    ensures Sane(r) && IsFileFd(r, fd) && r.root == s.root && r.fds[fd].cur == b
  {
    var e := s.fds[fd];
    var d := s.disk[b := BlankBlock()];
    var fds := s.fds[fd := e.(cur := b, off := 0)];
    if e.prev != 0 then s.(fds := fds, disk := d[e.prev := SetNext(d[e.prev], b)])
    else s.(fds := fds, disk := d, files := s.files[e.file := s.files[e.file].(block := b)])
  }

  /** Gives the descriptor a block to write to; false when the disk is full. */
  function EnsureBlock(s: State, fd: int): (r: (State, bool))
    requires Sane(s) && IsFileFd(s, fd)
    ensures Sane(r.0) && IsFileFd(r.0, fd) && r.0.root == s.root
    ensures r.1 ==> AtBlock(r.0, r.0.fds[fd])
    ensures !r.1 ==> r.0 == s
  {
    if AtBlock(s, s.fds[fd]) then (s, true)
    else
      var (s1, b) := AllocBlock(s);
      if b == 0 then (s1, false) else (LinkBlock(s1, fd, b), true)
  }

  function WriteSpan(e: Fd, data: seq<byte>): (n: nat)
    requires e.FileFd? && e.off < PAYLOAD && data != []
    ensures 0 < n <= |data| && e.off + n <= PAYLOAD
  {
    Min(|data|, PAYLOAD - e.off)
  }

  /** The descriptor after `n` bytes were put at its cursor, in a block whose successor is `next`. */
  function WriteAdvance(e: Fd, n: nat, next: u16): (r: Fd)
    requires e.FileFd? && e.off + n <= PAYLOAD
    ensures r.FileFd?
  {
    var pos := (e.pos + n) % 0x1_0000;
    if e.off + n >= PAYLOAD then e.(pos := pos, off := 0, prev := e.cur, cur := next)
    else e.(pos := pos, off := e.off + n)
  }

  /** One round of the write loop: fill the current block from the cursor on. */
  function PutChunk(s: State, fd: int, chunk: seq<byte>): (r: State)
    requires Sane(s) && IsFileFd(s, fd) && AtBlock(s, s.fds[fd])
    requires s.fds[fd].off + |chunk| <= PAYLOAD
    ensures Sane(r) && IsFileFd(r, fd) && r.root == s.root
  {
    var e := s.fds[fd];
    var sector := Patch(s.disk[e.cur], e.off, chunk);
    var e' := WriteAdvance(e, |chunk|, Next(sector));
    var f := s.files[e.file];
    s.(disk := s.disk[e.cur := sector],
       fds := s.fds[fd := e'],
       files := s.files[e.file := f.(size := Max(f.size, e'.pos))])
  }

  function WriteLoop(s: State, fd: int, data: seq<byte>): (r: (State, bool))
    requires Sane(s) && IsFileFd(s, fd)
    ensures Sane(r.0) && IsFileFd(r.0, fd) && r.0.root == s.root
    decreases |data|
  {
    if data == [] then (s, true)
    else
      var (s1, ok) := EnsureBlock(s, fd);
      if !ok then (s1, false)
      else
        var n := WriteSpan(s1.fds[fd], data);
        WriteLoop(PutChunk(s1, fd, data[..n]), fd, data[n..])
  }

  /** The count comes back as a 16-bit `int`; -1 also stands for a full disk. */
  function Write(s: State, fd: int, data: seq<byte>): (r: (State, int))
    requires Sane(s) && |data| < 0x1_0000
    ensures Sane(r.0)
  {
    if !IsFileFd(s, fd) || !s.fds[fd].Writable() then (s, -1)
    else
      var (s1, ok) := WriteLoop(s, fd, data);
      (s1, if ok then Int16(|data|) else -1)
  }

  // ---- seek --------------------------------------------------------------------------------------

  /** Walks whole blocks while the offset reaches past the current one. */
  function SeekWalk(s: State, b: u16, off: u16): (r: (u16, u16))
    requires Sane(s)
    ensures 0 < r.0 < s.root.total ==> r.1 < PAYLOAD
    decreases off
  {
    if off >= PAYLOAD && 0 < b < s.root.total then SeekWalk(s, Next(s.disk[b]), off - PAYLOAD) else (b, off)
  }

  /** The offset a seek resolves to; an unknown `whence` leaves it as found on the stack. */
  function SeekTarget(s: State, e: Fd, pos: u16, whence: int, junk: u16): u16
    requires Sane(s) && e.FileFd? && 0 <= e.file < MAX_FILES
  {
    if whence == SEEK_SET then pos
    else if whence == SEEK_CUR then (e.pos + pos) % 0x1_0000
    else if whence == SEEK_END then (s.files[e.file].size + pos) % 0x1_0000
    else junk
  }

  function Seek(s: State, fd: int, pos: u16, whence: int, junk: u16): (r: (State, int))
    requires Sane(s)
    ensures Sane(r.0)
  {
    if !IsFileFd(s, fd) then (s, -1)
    else
      var e := s.fds[fd];
      var (b, off) := SeekWalk(s, s.files[e.file].block, SeekTarget(s, e, pos, whence, junk));
      (s.(fds := s.fds[fd := e.(pos := pos, cur := b, off := off)]), Int16(pos))
  }

  // ---- delete ------------------------------------------------------------------------------------

  /** How many of the first `n` sectors have a nonzero next pointer. */
  function Linked(disk: seq<Sector>, n: nat): nat
    requires n <= |disk|
  {
    if n == 0 then 0 else Linked(disk, n - 1) + if Next(disk[n - 1]) != 0 then 1 else 0
  }

  /** Zeroing sector `b` takes it out of the count; nothing else changes. */
  lemma {:induction false} LinkedZeroed(disk: seq<Sector>, b: nat, n: nat)
    requires b < |disk| && n <= |disk|
    ensures Linked(disk[b := ZeroSector()], n)
         == Linked(disk, n) - if b < n && Next(disk[b]) != 0 then 1 else 0
  {
    if n > 0 { LinkedZeroed(disk, b, n - 1); }
  }

  /**
   The chain walk of `mfs_delete`. It terminates on every disk image, cyclic and cross-linked
   chains included: a sector is zeroed before its successor is visited, so each round either
   uses up a sector with a nonzero next pointer or leaves the loop.
   */
  function EraseWalk(disk: seq<Sector>, bm: Sector, total: u16, b: u16): (r: (seq<Sector>, Sector))
    requires total <= |disk| && total <= 8 * SECTOR
    ensures |r.0| == |disk|
    decreases Linked(disk, total), if b == 0 then 0 else 1
  {
    if b == 0 || b >= total then (disk, bm)
    else
      LinkedZeroed(disk, b, total);
      EraseWalk(disk[b := ZeroSector()], Unmark(bm, b), total, Next(disk[b]))
  }

  function RemoveFile(s: State, i: int): (r: State)
    requires Sane(s) && 0 <= i < MAX_FILES && s.root.fileCount > 0
    ensures Sane(r)
  {
    var (disk, bm) := EraseWalk(s.disk, s.bitmap, s.root.total, s.files[i].block);
    s.(disk := disk, bitmap := bm, files := s.files[i := ZeroEntry()],
       root := s.root.(fileCount := s.root.fileCount - 1))
  }

  function Delete(s: State, name: CString): (r: (State, int))
    requires Sane(s)
    ensures Sane(r.0)
  {
    var i := FindFile(s, name);
    if i == -1 then (s, -1) else (WriteChanges(RemoveFile(s, i)), 0)
  }

  // ---- mount -------------------------------------------------------------------------------------

  function BootFd(d: int): Fd {
    if d == 0 then Stdin else if d == 1 then Stdout else if d == 2 then Stderr else NoFd
  }

  function BootFds(): (fds: seq<Fd>)
    ensures |fds| == FD_MAX && forall d :: 0 <= d < FD_MAX ==> !fds[d].FileFd?
  {
    seq(FD_MAX, d => BootFd(d))
  }

  datatype MountResult = BadChecksum | BadSector | Mounted(state: State)

  /** `mfs_init` then `fd_init`: everything cached is reloaded from the disk, if the sectors are there. */
  function Mount(disk: seq<Sector>): MountResult
    requires |disk| > 0
  {
    var root := DecodeRoot(disk[0]);
    if root.checksum != CHECKSUM then BadChecksum
    else if root.bitmapSector >= |disk| || root.fentrySector >= |disk| then BadSector
    else
      var table := DecodeTable(disk[root.fentrySector]);
      Mounted(State(disk, disk[root.bitmapSector], root, table.0, table.1, BootFds()))
  }
}
