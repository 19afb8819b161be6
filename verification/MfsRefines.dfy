/**
 The kernel refines the volume of named byte strings: over every run a disciplined program makes from a
 formatted disk, each operation returns what it returns there, and files hold the same bytes.
 */
module MfsRefines {
  import opened Machine
  import opened MfsFormat
  import opened MfsState
  import opened MfsChains
  import opened MfsContents
  import opened MfsReads
  import opened MfsLife
  import opened MfsStructure
  import opened MfsUtil
  import opened MfsVolume

  // ---- names ----------------------------------------------------------------------------------------

  function NoName(): Name { seq(12, _ => 0) }

  /** A short name in its slot. */
  function Stored(n: CString): Name { CopyName(NoName(), n) }

  lemma {:induction false} NameFrom(name: CString, n: CString, j: nat)
    requires |n| <= 11 && j <= |name| && j <= |n| && name[..j] == n[..j]
    ensures SameFrom(name, Stored(n), j) <==> name == n
    decreases 12 - j
  {
    if j < |name| && j < |n| && name[j] == n[j] {
      assert name[j] in name && name[..j + 1] == name[..j] + [name[j]] && n[..j + 1] == n[..j] + [n[j]];
      NameFrom(name, n, j + 1);
    } else if j == |name| && j == |n| {
      assert name[..j] == name && n[..j] == n;
    } else {
      if j < |name| { assert name[j] in name; }
      if j < |n| { assert n[j] in n; }
    }
  }

  /** Names are found by equality. */
  lemma NameMatches(name: CString, n: CString)
    requires |n| <= 11
    ensures SameName(name, Stored(n)) <==> name == n
  {
    NameFrom(name, n, 0);
  }

  // ---- the relation ------------------------------------------------------------------------------------

  /** Slot `i` of the disk holds the file. */
  ghost predicate FileOk(s: State, cs: Chains, i: int, f: File)
    requires Filed(s, cs) && 0 <= i < MAX_FILES
  {
    && |f.name| <= 11 && s.files[i].name == Stored(f.name)
    && Content(s, cs, i) == f.bytes && |cs[i]| == Blocks(|f.bytes|)
  }

  predicate Distinct(files: seq<File>) {
    forall i, j :: 0 <= i < j < |files| ==> files[i].name != files[j].name
  }

  ghost predicate FilesOk(s: State, cs: Chains, files: seq<File>) {
    && Filed(s, cs) && Packed(s) && |files| == s.root.fileCount && Distinct(files)
    && (forall i :: 0 <= i < |files| ==> FileOk(s, cs, i, files[i]))
    && (forall i :: |files| <= i < MAX_FILES ==> s.files[i].name[11] == 0 && cs[i] == [])
  }

  /** The descriptor is what the handle says. */
  ghost predicate FdOk(e: Fd, h: Handle, cs: Chains, n: int) {
    match h
    case NoHandle => e == NoFd
    case Terminal => e in {Stdin, Stdout, Stderr}
    case Handle(i, pos, mode, place) =>
      && e.FileFd? && e.file == i && 0 <= i < n && n <= MAX_FILES && e.pos == pos && e.mode == mode
      && (place == Ready ==> WriteReady(e, cs[i])) && (place == Placed ==> CursorAt(e, cs[i]))
  }

  ghost predicate FdsOk(fds: seq<Fd>, hs: seq<Handle>, cs: Chains, n: int) {
    |fds| == |hs| == FD_MAX && forall d :: 0 <= d < FD_MAX ==> FdOk(fds[d], hs[d], cs, n)
  }

  /** The kernel's state stands for the volume. */
  ghost predicate Rep(s: State, cs: Chains, v: Volume) {
    && FilesOk(s, cs, v.files) && FdsOk(s.fds, v.fds, cs, |v.files|)
    && v.free == FreeBlocks(s) && v.max == s.root.maxFiles
  }

  // ---- lookups ------------------------------------------------------------------------------------------

  lemma {:induction false} FoundByName(s: State, cs: Chains, files: seq<File>, name: CString, i: nat)
    requires FilesOk(s, cs, files) && i <= |files| && forall j :: 0 <= j < i ==> files[j].name != name
    ensures FindFrom(s.files, name, i, |files|) == Index(files, name)
    decreases |files| - i
  {
    if i < |files| {
      assert FileOk(s, cs, i, files[i]);
      NameMatches(name, files[i].name);
      if files[i].name != name { FoundByName(s, cs, files, name, i + 1); }
    }
  }

  lemma Finds(s: State, cs: Chains, v: Volume, name: CString)
    requires Rep(s, cs, v)
    ensures FindFile(s, name) == Index(v.files, name)
  {
    FoundByName(s, cs, v.files, name, 0);
  }

  lemma {:induction false} SameFirst(fds: seq<Fd>, hs: seq<Handle>, cs: Chains, n: int, i: nat)
    requires FdsOk(fds, hs, cs, n)
    ensures FirstFd(fds, i) == FirstClosed(hs, i)
    decreases |fds| - i
  {
    if i < |fds| {
      assert FdOk(fds[i], hs[i], cs, n);
      SameFirst(fds, hs, cs, n, i + 1);
    }
  }

  // ---- operations on descriptors alone -------------------------------------------------------------------

  /** New descriptors, same files. */
  lemma FdsReplaced(s: State, cs: Chains, files: seq<File>, fds: seq<Fd>)
    requires FilesOk(s, cs, files) && Sane(s.(fds := fds))
    ensures FilesOk(s.(fds := fds), cs, files) && FreeBlocks(s.(fds := fds)) == FreeBlocks(s)
  {
    var r := s.(fds := fds);
    FdsAside(s, cs, fds);
    forall i | 0 <= i < |files| ensures FileOk(r, cs, i, files[i]) { assert FileOk(s, cs, i, files[i]); }
  }

  lemma FdReplaced(fds: seq<Fd>, hs: seq<Handle>, cs: Chains, n: int, d: int, e: Fd, h: Handle)
    requires FdsOk(fds, hs, cs, n) && 0 <= d < FD_MAX && FdOk(e, h, cs, n)
    ensures FdsOk(fds[d := e], hs[d := h], cs, n)
  {
  }

  lemma IsHandleOk(s: State, cs: Chains, v: Volume, fd: int)
    requires Rep(s, cs, v)
    ensures IsFileFd(s, fd) <==> IsHandle(v, fd)
    ensures IsHandle(v, fd) ==> FdOk(s.fds[fd], v.fds[fd], cs, |v.files|)
    ensures IsHandle(v, fd) ==> FileOk(s, cs, v.fds[fd].file, v.files[v.fds[fd].file])
  {
    if 0 <= fd < FD_MAX { assert FdOk(s.fds[fd], v.fds[fd], cs, |v.files|); }
  }

  lemma ReadRefines(s: State, cs: Chains, v: Volume, fd: int, count: u16)
    requires Rep(s, cs, v) && Disciplined(v, OpRead(fd, count))
    ensures Rep(Read(s, fd, count).0, cs, ReadFile(v, fd, count).0)
    ensures Given(Read(s, fd, count).1) == ReadFile(v, fd, count).1
  {
    IsHandleOk(s, cs, v, fd);
    if IsHandle(v, fd) && v.fds[fd].mode in {ReadOnly, ReadWrite} {
      var e, h := s.fds[fd], v.fds[fd];
      ReadReturns(s, cs, e, count);
      var e' := ReadLoop(s, e, count).0;
      FdsReplaced(s, cs, v.files, s.fds[fd := e']);
      FdReplaced(s.fds, v.fds, cs, |v.files|, fd, e', ReadFile(v, fd, count).0.fds[fd]);
    }
  }

  lemma SeekRefines(s: State, cs: Chains, v: Volume, fd: int, pos: u16, whence: int, junk: u16)
    requires Rep(s, cs, v)
    ensures Rep(Seek(s, fd, pos, whence, junk).0, cs, SeekFile(v, fd, pos, whence).0)
    ensures Number(Seek(s, fd, pos, whence, junk).1) == SeekFile(v, fd, pos, whence).1
  {
    IsHandleOk(s, cs, v, fd);
    if IsHandle(v, fd) {
      var r := Seek(s, fd, pos, whence, junk).0;
      if whence in {SEEK_SET, SEEK_CUR, SEEK_END} { SeekCursor(s, cs, fd, pos, whence, junk); }
      FdsReplaced(s, cs, v.files, r.fds);
      FdReplaced(s.fds, v.fds, cs, |v.files|, fd, r.fds[fd], SeekFile(v, fd, pos, whence).0.fds[fd]);
    }
  }

  lemma AttachRefines(s: State, cs: Chains, v: Volume, i: int, flags: u16, junk: u16)
    requires Rep(s, cs, v) && 0 <= i < |v.files|
    ensures var fd := FirstFd(s.fds, 3);
            var r := if fd == -1 then s else s.(fds := s.fds[fd := NewFd(s.files[i], i, flags, junk)]);
            Rep(r, cs, Attach(v, i, flags, junk).0) && Attach(v, i, flags, junk).1 == Number(fd)
  {
    FlagBits(flags);
    SameFirst(s.fds, v.fds, cs, |v.files|, 3);
    var fd := FirstFd(s.fds, 3);
    if fd != -1 {
      var e, h := NewFd(s.files[i], i, flags, junk), NewHandle(v, i, flags, junk);
      assert FileOk(s, cs, i, v.files[i]);
      OpenCursor(s, cs, i, flags, junk);
      FdsReplaced(s, cs, v.files, s.fds[fd := e]);
      FdReplaced(s.fds, v.fds, cs, |v.files|, fd, e, h);
    }
  }

  // ---- sync and close -----------------------------------------------------------------------------------

  lemma SyncRefines(s: State, cs: Chains, v: Volume)
    requires Rep(s, cs, v)
    ensures Rep(WriteChanges(s), cs, v)
  {
    var r := WriteChanges(s);
    SyncKeeps(s, cs);
    forall i | 0 <= i < |v.files| ensures FileOk(r, cs, i, v.files[i]) {
      assert FileOk(s, cs, i, v.files[i]) && Kept(s, cs, r, cs, i);
    }
  }

  lemma CloseRefines(s: State, cs: Chains, v: Volume, fd: int)
    requires Rep(s, cs, v)
    ensures Rep(Close(s, fd).0, cs, CloseHandle(v, fd).0) && Number(Close(s, fd).1) == CloseHandle(v, fd).1
  {
    if 3 <= fd < FD_MAX {
      var s1 := if s.fds[fd].FileFd? then WriteChanges(s) else s;
      if s.fds[fd].FileFd? { SyncRefines(s, cs, v); }
      FdsReplaced(s1, cs, v.files, s1.fds[fd := NoFd]);
      FdReplaced(s1.fds, v.fds, cs, |v.files|, fd, NoFd, NoHandle);
    }
  }

  // ---- create and open -----------------------------------------------------------------------------------

  lemma NextSlot(s: State)
    requires Sane(s) && Packed(s) && s.root.fileCount < s.root.maxFiles
    ensures FreeSlot(s.files, 0, s.root.maxFiles) == s.root.fileCount
  {
    assert s.files[s.root.fileCount].used == 0;
  }

  /** A failed create marks a block that no file gets. */
  lemma LeakRefines(s: State, cs: Chains, v: Volume, b: u16)
    requires Rep(s, cs, v) && v.free > 0 && IsData(s.root, b) && !Marked(s.bitmap, b)
    ensures Rep(s.(bitmap := Mark(s.bitmap, b)), cs, v.(free := v.free - 1))
  {
    var r := s.(bitmap := Mark(s.bitmap, b));
    MarkKeepsFiles(s, cs, b);
    MarkTakesOne(s.bitmap, s.root.dataStart, s.root.total, b);
    forall i | 0 <= i < |v.files| ensures FileOk(r, cs, i, v.files[i]) {
      assert FileOk(s, cs, i, v.files[i]) && Kept(s, cs, r, cs, i);
    }
  }

  lemma CreatedSlots(s: State, cs: Chains, v: Volume, r: State, cs': Chains, i: int, f: File)
    requires Rep(s, cs, v) && i == |v.files| < MAX_FILES && OthersKept(s, cs, r, cs', i) && f.bytes == []
    requires |f.name| <= 11 && r.files[i].name == Stored(f.name) && Content(r, cs', i) == [] && |cs'[i]| == 1
    ensures forall j :: 0 <= j <= i ==> FileOk(r, cs', j, (v.files + [f])[j])
    ensures forall j :: i < j < MAX_FILES ==> r.files[j].name[11] == 0 && cs'[j] == []
  {
    forall j | 0 <= j <= i ensures FileOk(r, cs', j, (v.files + [f])[j]) {
      if j < i { assert FileOk(s, cs, j, v.files[j]) && Kept(s, cs, r, cs', j); }
    }
    forall j | i < j < MAX_FILES ensures r.files[j].name[11] == 0 && cs'[j] == [] { assert Kept(s, cs, r, cs', j); }
  }

  lemma StoredOver(was: Name, n: CString)
    requires was[11] == 0
    ensures CopyName(was, n) == Stored(n)
  {
  }

  lemma DistinctMore(files: seq<File>, f: File)
    requires Distinct(files) && Index(files, f.name) == -1
    ensures Distinct(files + [f])
  {
  }

  /** The new file in its slot, the others in theirs. */
  lemma CreatedFiles(s: State, cs: Chains, v: Volume, name: CString, flags: u16) returns (cs': Chains)
    requires Rep(s, cs, v) && Index(v.files, name) == -1 && |name| <= 11 && Create(s, name, flags).1 != -1
    ensures FilesOk(Create(s, name, flags).0, cs', v.files + [File(name, [])])
    ensures Create(s, name, flags).1 == |v.files| && cs' == cs[|v.files| := cs'[|v.files|]]
  {
    var (r, i) := Create(s, name, flags);
    Finds(s, cs, v, name);
    cs' := CreateAdds(s, cs, name, flags);
    CreatePacked(s, name, flags);
    StoredOver(s.files[i].name, name);
    CreatedSlots(s, cs, v, r, cs', i, File(name, []));
    DistinctMore(v.files, File(name, []));
  }

  lemma CreateTakesOne(s: State, name: CString, flags: u16)
    requires Sane(s) && Create(s, name, flags).1 != -1
    ensures FreeBlocks(Create(s, name, flags).0) == FreeBlocks(s) - 1
  {
    MarkTakesOne(s.bitmap, s.root.dataStart, s.root.total, AllocBlock(s).1);
  }

  /** Handles on earlier slots do not notice a new one. */
  lemma FdsWider(fds: seq<Fd>, hs: seq<Handle>, cs: Chains, n: int, cs': Chains)
    requires FdsOk(fds, hs, cs, n) && 0 <= n < MAX_FILES && cs' == cs[n := cs'[n]]
    ensures FdsOk(fds, hs, cs', n + 1)
  {
    forall d | 0 <= d < FD_MAX ensures FdOk(fds[d], hs[d], cs', n + 1) { assert FdOk(fds[d], hs[d], cs, n); }
  }

  lemma MakeRefines(s: State, cs: Chains, v: Volume, name: CString, flags: u16) returns (cs': Chains)
    requires Rep(s, cs, v) && Index(v.files, name) == -1 && |name| <= 11
    ensures Create(s, name, flags).1 == Make(v, name).1
    ensures Rep(Create(s, name, flags).0, cs', Make(v, name).0)
  {
    cs' := cs;
    var b := AllocBlock(s).1;
    ScanFindsFree(s.bitmap, s.root.dataStart, s.root.total);
    if b != 0 {
      if s.root.fileCount >= s.root.maxFiles {
        LeakRefines(s, cs, v, b);
      } else {
        NextSlot(s);
        cs' := CreatedFiles(s, cs, v, name, flags);
        CreateTakesOne(s, name, flags);
        FdsWider(s.fds, v.fds, cs, |v.files|, cs');
      }
    }
  }

  lemma OpenRefines(s: State, cs: Chains, v: Volume, name: CString, flags: u16, junk: u16) returns (cs': Chains)
    requires Rep(s, cs, v) && Disciplined(v, OpOpen(name, flags, junk))
    ensures Rep(Open(s, name, flags, junk).0, cs', OpenFile(v, name, flags, junk).0)
    ensures Number(Open(s, name, flags, junk).1) == OpenFile(v, name, flags, junk).1
  {
    cs' := cs;
    FlagBits(flags);
    Finds(s, cs, v, name);
    var found := Index(v.files, name);
    if found == -1 && Makes(flags) {
      cs' := MakeRefines(s, cs, v, name, flags);
      var (r, i) := Create(s, name, flags);
      if i != -1 { AttachRefines(r, cs', Make(v, name).0, i, flags, junk); }
    } else if found != -1 {
      AttachRefines(s, cs, v, found, flags, junk);
    }
  }

  // ---- write -----------------------------------------------------------------------------------------------

  lemma BlocksExact(m: nat, k: nat)
    requires k >= 1 && PAYLOAD * (k - 1) < m <= PAYLOAD * k
    ensures Blocks(m) == k
  {
    var q := m + PAYLOAD - 1;
    assert PAYLOAD * k <= q < PAYLOAD * (k + 1);
    assert q / PAYLOAD == k;
  }

  lemma BlocksStay(a: nat, m: nat)
    requires a <= m <= PAYLOAD * Blocks(a)
    ensures Blocks(m) == Blocks(a)
  {
    var k := Blocks(a);
    if m > PAYLOAD * (k - 1) && m > 0 {
      BlocksExact(m, k);
    }
  }

  /** Where a handle may be written, the descriptor is ready. */
  lemma WritableIsReady(s: State, cs: Chains, v: Volume, fd: int)
    requires Rep(s, cs, v) && IsHandle(v, fd) && MayWrite(v.fds[fd], v.files[v.fds[fd].file])
    ensures CanWrite(s, cs, fd)
  {
    IsHandleOk(s, cs, v, fd);
    var e := s.fds[fd];
    assert SlotSound(s, e.file, cs[e.file]);
    if v.fds[fd].place == Placed {
      var k := e.pos / PAYLOAD;
      assert k < |cs[e.file]| && IsData(s.root, cs[e.file][k]);
    }
  }

  /** A descriptor on a chain that was extended keeps its place unless it waited at the chain's end. */
  lemma PlaceKept(e: Fd, h: Handle, cs: Chains, cs': Chains, n: int, i: int, f: File, g: File)
    requires FdOk(e, h, cs, n) && 0 <= i < MAX_FILES && cs[i] <= cs'[i] && 0 !in cs[i]
    requires |cs[i]| == Blocks(|f.bytes|) && |cs'[i]| == Blocks(|g.bytes|)
    requires forall j :: 0 <= j < MAX_FILES && j != i ==> cs'[j] == cs[j]
    ensures FdOk(e, Passed(h, i, f, g), cs', n)
  {
    if h.Handle? && h.file == i && Passed(h, i, f, g) == h && h.place != Lost {
      var c, c' := cs[i], cs'[i];
      if e.pos == PAYLOAD * |c| {
        assert c' == c;
      } else {
        var k := e.pos / PAYLOAD;
        assert k < |c| && c'[k] == c[k] && c[k] in c;
      }
    }
  }

  /** The chain fits the file's new length as tightly as before. */
  lemma StillSnug(s: State, cs: Chains, r: State, cs': Chains, fd: int, f: File, done: seq<byte>)
    requires Wrote(s, cs, r, cs', fd, done) && Snug(cs, cs', s.fds[fd].file, r.fds[fd].pos)
    requires f.bytes == Content(s, cs, s.fds[fd].file) && |cs[s.fds[fd].file]| == Blocks(|f.bytes|)
    ensures |cs'[s.fds[fd].file]| == Blocks(|Overlay(f.bytes, s.fds[fd].pos, done)|)
  {
    var i, pos := s.fds[fd].file, r.fds[fd].pos;
    var m := |Overlay(f.bytes, s.fds[fd].pos, done)|;
    assert m == Max(|f.bytes|, pos) == r.files[i].size <= PAYLOAD * |cs'[i]|;
    if |cs'[i]| > |cs[i]| {
      assert |f.bytes| <= PAYLOAD * |cs[i]|;
      BlocksExact(m, |cs'[i]|);
    } else {
      BlocksStay(|f.bytes|, m);
    }
  }

  lemma WrittenFiles(s: State, cs: Chains, v: Volume, fd: int, r: State, cs': Chains, done: seq<byte>, g: File)
    requires Rep(s, cs, v) && IsHandle(v, fd) && Wrote(s, cs, r, cs', fd, done)
    requires s.fds[fd].file == v.fds[fd].file && Snug(cs, cs', s.fds[fd].file, r.fds[fd].pos)
    requires g == File(v.files[v.fds[fd].file].name, Overlay(Content(s, cs, s.fds[fd].file), s.fds[fd].pos, done))
    requires forall j :: 0 <= j < MAX_FILES ==> r.files[j].used == s.files[j].used
    ensures FilesOk(r, cs', v.files[v.fds[fd].file := g])
  {
    var i := v.fds[fd].file;
    var files := v.files[i := g];
    assert FileOk(s, cs, i, v.files[i]);
    StillSnug(s, cs, r, cs', fd, v.files[i], done);
    forall j | 0 <= j < |files| ensures FileOk(r, cs', j, files[j]) { assert FileOk(s, cs, j, v.files[j]); }
  }

  /** Writing changes no `used` byte. */
  lemma {:induction false} WriteUsed(s: State, fd: int, data: seq<byte>, j: int)
    requires Sane(s) && IsFileFd(s, fd) && 0 <= j < MAX_FILES
    ensures WriteLoop(s, fd, data).0.files[j].used == s.files[j].used
    decreases |data|
  {
    if data != [] {
      var (s1, ok) := EnsureBlock(s, fd);
      if ok {
        var n := WriteSpan(s1.fds[fd], data);
        WriteUsed(PutChunk(s1, fd, data[..n]), fd, data[n..], j);
      }
    }
  }

  lemma WrittenFds(s: State, cs: Chains, v: Volume, fd: int, r: State, cs': Chains, done: seq<byte>, g: File)
    requires Rep(s, cs, v) && IsHandle(v, fd) && Wrote(s, cs, r, cs', fd, done) && s.fds[fd].file == v.fds[fd].file
    requires |cs[v.fds[fd].file]| == Blocks(|v.files[v.fds[fd].file].bytes|)
    requires |cs'[v.fds[fd].file]| == Blocks(|g.bytes|)
    ensures var h := v.fds[fd];
            var f := v.files[h.file];
            var fds := seq(|v.fds|, d requires 0 <= d < |v.fds| => Passed(v.fds[d], h.file, f, g));
            FdsOk(r.fds, fds[fd := h.(pos := h.pos + |done|, place := Ready)], cs', |v.files|)
  {
    var h := v.fds[fd];
    var i, f := h.file, v.files[h.file];
    assert SlotSound(s, i, cs[i]);
    forall k | 0 <= k < |cs[i]| ensures cs[i][k] != 0 { assert IsData(s.root, cs[i][k]); }
    var fds := seq(|v.fds|, d requires 0 <= d < |v.fds| => Passed(v.fds[d], i, f, g));
    var hs := fds[fd := h.(pos := h.pos + |done|, place := Ready)];
    assert FdOk(s.fds[fd], h, cs, |v.files|);
    forall d | 0 <= d < FD_MAX ensures FdOk(r.fds[d], hs[d], cs', |v.files|) {
      if d != fd {
        assert FdOk(s.fds[d], v.fds[d], cs, |v.files|) && hs[d] == Passed(v.fds[d], i, f, g);
        PlaceKept(s.fds[d], v.fds[d], cs, cs', |v.files|, i, f, g);
      }
    }
  }

  /** Chains only grow, by blocks that were free. */
  predicate Extended(bm: Sector, cs: Chains, cs': Chains) {
    forall j :: 0 <= j < MAX_FILES ==> cs[j] <= cs'[j] && New(bm, cs[j], cs'[j])
  }

  /** What the abstract write makes of the volume, spelt out. */
  lemma WriteFileIs(v: Volume, fd: int, data: seq<byte>, n: nat, g: File)
    requires IsHandle(v, fd) && v.fds[fd].mode in {WriteOnly, ReadWrite} && |data| < 0x1_0000
    requires var h := v.fds[fd];
             var f := v.files[h.file];
             && h.pos <= |f.bytes| && n == Min(|data|, Max(PAYLOAD * (Blocks(|f.bytes|) + v.free) - h.pos, 0))
             && g == File(f.name, Overlay(f.bytes, h.pos, data[..n]))
    ensures var h := v.fds[fd];
            var f := v.files[h.file];
            var fds := seq(|v.fds|, d requires 0 <= d < |v.fds| => Passed(v.fds[d], h.file, f, g));
            var w := WriteFile(v, fd, data).0;
            && w.files == v.files[h.file := g] && w.fds == fds[fd := h.(pos := h.pos + n, place := Ready)]
            && w.free == Max(v.free - (Blocks(|g.bytes|) - Blocks(|f.bytes|)), 0) && w.max == v.max
            && WriteFile(v, fd, data).1 == Number(if n == |data| then Int16(|data|) else -1)
  {
  }

  lemma WriteCase(s: State, cs: Chains, v: Volume, fd: int, data: seq<byte>, r: State, ok: bool, cs': Chains)
    requires Rep(s, cs, v) && IsHandle(v, fd) && v.fds[fd].mode in {WriteOnly, ReadWrite} && |data| < 0x1_0000
    requires CanWrite(s, cs, fd) && FdOk(s.fds[fd], v.fds[fd], cs, |v.files|)
    requires StoredFrom(s, cs, r, ok, cs', fd, data) && Snug(cs, cs', s.fds[fd].file, r.fds[fd].pos)
    requires forall j :: 0 <= j < MAX_FILES ==> r.files[j].used == s.files[j].used
    ensures Rep(r, cs', WriteFile(v, fd, data).0)
    ensures Number(if ok then Int16(|data|) else -1) == WriteFile(v, fd, data).1
  {
    var h := v.fds[fd];
    var f := v.files[h.file];
    assert FileOk(s, cs, h.file, f);
    var n := Min(|data|, Room(s, cs[h.file], s.fds[fd]));
    var g := File(f.name, Overlay(f.bytes, h.pos, data[..n]));
    WriteFileIs(v, fd, data, n, g);
    WrittenFiles(s, cs, v, fd, r, cs', data[..n], g);
    assert FileOk(r, cs', h.file, v.files[h.file := g][h.file]);
    WrittenFds(s, cs, v, fd, r, cs', data[..n], g);
  }

  lemma WriteExtends(s: State, cs: Chains, r: State, cs': Chains, fd: int, done: seq<byte>)
    requires Wrote(s, cs, r, cs', fd, done) && New(s.bitmap, cs[s.fds[fd].file], cs'[s.fds[fd].file])
    ensures Extended(s.bitmap, cs, cs')
  {
  }

  lemma WriteThrough(s: State, cs: Chains, v: Volume, fd: int, data: seq<byte>) returns (cs': Chains)
    requires Rep(s, cs, v) && Disciplined(v, OpWrite(fd, data))
    requires IsHandle(v, fd) && v.fds[fd].mode in {WriteOnly, ReadWrite}
    ensures var (r, ok) := WriteLoop(s, fd, data);
            && Rep(r, cs', WriteFile(v, fd, data).0) && Extended(s.bitmap, cs, cs')
            && Number(if ok then Int16(|data|) else -1) == WriteFile(v, fd, data).1
  {
    IsHandleOk(s, cs, v, fd);
    WritableIsReady(s, cs, v, fd);
    cs' := WriteStores(s, cs, fd, data);
    var (r, ok) := WriteLoop(s, fd, data);
    forall j | 0 <= j < MAX_FILES ensures r.files[j].used == s.files[j].used { WriteUsed(s, fd, data, j); }
    WriteCase(s, cs, v, fd, data, r, ok, cs');
    var n := Min(|data|, Room(s, cs[s.fds[fd].file], s.fds[fd]));
    WriteExtends(s, cs, r, cs', fd, data[..n]);
  }

  lemma WriteRefines(s: State, cs: Chains, v: Volume, fd: int, data: seq<byte>) returns (cs': Chains)
    requires Rep(s, cs, v) && Disciplined(v, OpWrite(fd, data))
    ensures Rep(Write(s, fd, data).0, cs', WriteFile(v, fd, data).0)
    ensures Number(Write(s, fd, data).1) == WriteFile(v, fd, data).1
    ensures Extended(s.bitmap, cs, cs')
  {
    cs' := cs;
    IsHandleOk(s, cs, v, fd);
    if IsHandle(v, fd) && v.fds[fd].mode in {WriteOnly, ReadWrite} { cs' := WriteThrough(s, cs, v, fd, data); }
  }

  // ---- delete -------------------------------------------------------------------------------------------

  lemma DeletedFds(fds: seq<Fd>, hs: seq<Handle>, cs: Chains, n: int, cs': Chains)
    requires FdsOk(fds, hs, cs, n) && 0 < n <= MAX_FILES && cs' == cs[n - 1 := []]
    requires forall d :: 0 <= d < |hs| && hs[d].Handle? ==> hs[d].file != n - 1
    ensures FdsOk(fds, hs, cs', n - 1)
  {
    forall d | 0 <= d < FD_MAX ensures FdOk(fds[d], hs[d], cs', n - 1) { assert FdOk(fds[d], hs[d], cs, n); }
  }

  lemma DeletedFiles(s: State, cs: Chains, v: Volume, r: State, cs': Chains, i: int)
    requires Rep(s, cs, v) && i == |v.files| - 1 && i >= 0 && OthersKept(s, cs, r, cs', i) && cs' == cs[i := []]
    requires Packed(r) && r.root.fileCount == i && r.files[i] == ZeroEntry()
    ensures FilesOk(r, cs', v.files[..i])
  {
    var files := v.files[..i];
    forall j | 0 <= j < i ensures FileOk(r, cs', j, files[j]) {
      assert FileOk(s, cs, j, v.files[j]) && Kept(s, cs, r, cs', j);
    }
    forall j | i <= j < MAX_FILES ensures r.files[j].name[11] == 0 && cs'[j] == [] {
      if j != i { assert Kept(s, cs, r, cs', j); }
    }
  }

  lemma DeleteRefines(s: State, cs: Chains, v: Volume, name: CString) returns (cs': Chains)
    requires Rep(s, cs, v) && Disciplined(v, OpDelete(name))
    ensures Rep(Delete(s, name).0, cs', DeleteFile(v, name).0) && Number(Delete(s, name).1) == DeleteFile(v, name).1
  {
    cs' := cs;
    Finds(s, cs, v, name);
    var i := Index(v.files, name);
    if i != -1 {
      cs' := cs[i := []];
      DeleteFrees(s, cs, name, 0);
      DeletePacked(s, name);
      assert FileOk(s, cs, i, v.files[i]);
      DeletedFiles(s, cs, v, Delete(s, name).0, cs', i);
      DeletedFds(s.fds, v.fds, cs, |v.files|, cs');
    }
  }

  // ---- runs ------------------------------------------------------------------------------------------------

  /** An operation with what it returns. */
  function Call(s: State, op: Op): (r: (State, Outcome))
    requires Sane(s) && (op.OpWrite? ==> |op.data| < 0x1_0000)
    ensures Sane(r.0)
  {
    match op
    case OpOpen(name, flags, junk) => var (t, x) := Open(s, name, flags, junk); (t, Number(x))
    case OpClose(fd) => var (t, x) := Close(s, fd); (t, Number(x))
    case OpRead(fd, count) => var (t, x) := Read(s, fd, count); (t, Given(x))
    case OpWrite(fd, data) => var (t, x) := Write(s, fd, data); (t, Number(x))
    case OpSeek(fd, pos, whence, junk) => var (t, x) := Seek(s, fd, pos, whence, junk); (t, Number(x))
    case OpSync => (WriteChanges(s), Number(0))
    case OpDelete(name) => var (t, x) := Delete(s, name); (t, Number(x))
  }

  predicate ShortWrites(es: seq<Event>) {
    forall i :: 0 <= i < |es| && es[i].Ask? && es[i].op.OpWrite? ==> |es[i].op.data| < 0x1_0000
  }

  /** A restart of the kernel goes through the disk alone. */
  function Restarted(s: State): (r: (State, Outcome))
    requires Sane(s)
    ensures Sane(r.0)
  {
    RemountRestores(s);
    (Mount(WriteChanges(s).disk).state, Number(0))
  }

  function CallAll(s: State, es: seq<Event>): (r: (State, seq<Outcome>))
    requires Sane(s) && ShortWrites(es)
    ensures Sane(r.0)
    decreases |es|
  {
    if es == [] then (s, [])
    else
      var (t, x) := if es[0].Ask? then Call(s, es[0].op) else Restarted(s);
      var (u, xs) := CallAll(t, es[1..]);
      (u, [x] + xs)
  }

  lemma CallRefines(s: State, cs: Chains, v: Volume, op: Op) returns (cs': Chains)
    requires Rep(s, cs, v) && Disciplined(v, op)
    ensures Rep(Call(s, op).0, cs', Do(v, op).0) && Call(s, op).1 == Do(v, op).1
  {
    cs' := cs;
    match op
    case OpOpen(name, flags, junk) => cs' := OpenRefines(s, cs, v, name, flags, junk);
    case OpClose(fd) => CloseRefines(s, cs, v, fd);
    case OpRead(fd, count) => ReadRefines(s, cs, v, fd, count);
    case OpWrite(fd, data) => cs' := WriteRefines(s, cs, v, fd, data);
    case OpSeek(fd, pos, whence, junk) => SeekRefines(s, cs, v, fd, pos, whence, junk);
    case OpSync => SyncRefines(s, cs, v);
    case OpDelete(name) => cs' := DeleteRefines(s, cs, v, name);
  }

  /** A restart closes every descriptor and keeps every file. */
  lemma RestartRefines(s: State, cs: Chains, v: Volume)
    requires Rep(s, cs, v)
    ensures Mount(WriteChanges(s).disk).Mounted?
    ensures Rep(Mount(WriteChanges(s).disk).state, cs, v.(fds := BootHandles()))
  {
    var r := WriteChanges(s);
    SyncRefines(s, cs, v);
    RemountRestores(s);
    FdsReplaced(r, cs, v.files, BootFds());
    forall d | 0 <= d < FD_MAX ensures FdOk(BootFds()[d], BootHandles()[d], cs, |v.files|) {
      assert BootFds()[d] == BootFd(d);
    }
  }

  lemma EventRefines(s: State, cs: Chains, v: Volume, e: Event) returns (cs': Chains)
    requires Rep(s, cs, v) && (e.Ask? ==> Disciplined(v, e.op))
    ensures var (t, x) := if e.Ask? then Call(s, e.op) else Restarted(s);
            Rep(t, cs', DoEvent(v, e).0) && x == DoEvent(v, e).1
  {
    if e.Ask? {
      cs' := CallRefines(s, cs, v, e.op);
    } else {
      RestartRefines(s, cs, v);
      cs' := cs;
    }
  }

  lemma {:induction false} RunRefines(s: State, cs: Chains, v: Volume, es: seq<Event>) returns (cs': Chains)
    requires Rep(s, cs, v) && AllDisciplined(v, es)
    ensures ShortWrites(es) && Rep(CallAll(s, es).0, cs', DoAll(v, es).0)
    ensures CallAll(s, es).1 == DoAll(v, es).1
    decreases |es|
  {
    if es == [] {
      cs' := cs;
    } else {
      var c := EventRefines(s, cs, v, es[0]);
      var t := (if es[0].Ask? then Call(s, es[0].op) else Restarted(s)).0;
      cs' := RunRefines(t, c, DoEvent(v, es[0]).0, es[1..]);
      assert es == [es[0]] + es[1..];
    }
  }

  /** The volume of a disk just formatted. */
  function Empty(): Volume { Volume([], BootHandles(), 2874, 24) }

  /** By name, the kernel's files are the volume's map. */
  ghost predicate SameFiles(s: State, cs: Chains, v: Volume, name: CString) {
    && Filed(s, cs) && (FindFile(s, name) != -1 <==> name in Contents(v))
    && (name in Contents(v) ==> Content(s, cs, FindFile(s, name)) == Contents(v)[name])
  }

  lemma RepNames(s: State, cs: Chains, v: Volume, name: CString)
    requires Rep(s, cs, v)
    ensures SameFiles(s, cs, v, name)
  {
    Finds(s, cs, v, name);
    var i := Index(v.files, name);
    if i != -1 { assert FileOk(s, cs, i, v.files[i]) && v.files[i] in v.files; }
  }

  /**
   Main result: over every disciplined run from a formatted disk, restarts included, every operation returns
   what it returns on the volume, and in the end a file is found by a name if and only if the volume has
   it, with the bytes it has there.
   */
  lemma FormattedRefines(disk: seq<Sector>, s: State, es: seq<Event>, name: CString) returns (cs: Chains)
    requires FS_MAX_SECTORS <= |disk| && Mount(Format(disk)) == Mounted(s)
    ensures Sane(s)
    ensures AllDisciplined(Empty(), es) ==>
              && ShortWrites(es) && CallAll(s, es).1 == DoAll(Empty(), es).1
              && SameFiles(CallAll(s, es).0, cs, DoAll(Empty(), es).0, name)
  {
    var t := FormatMounts(disk);
    cs := NoChains();
    FreshRep(disk, s);
    if AllDisciplined(Empty(), es) {
      cs := RunRefines(s, NoChains(), Empty(), es);
      RepNames(CallAll(s, es).0, cs, DoAll(Empty(), es).0, name);
    }
  }

  lemma FreshRep(disk: seq<Sector>, s: State)
    requires FS_MAX_SECTORS <= |disk|
    requires DecodeRoot(Format(disk)[0]) == FreshRoot() && Geometry(Format(disk), FreshRoot())
    requires Mount(Format(disk)) == Mounted(s) && Filed(s, NoChains()) && Packed(s) && FreeBlocks(s) == 2874
    ensures Rep(s, NoChains(), Empty())
  {
    var d := Format(disk);
    assert d[2] == ZeroSector();
    ZeroEntries(ZeroSector());
    forall i | 0 <= i < MAX_FILES ensures s.files[i].name[11] == 0 { assert s.files[i] == ZeroEntry(); }
  }
}
