/** Creating, deleting, syncing and remounting, against the bytes every file holds. */
module MfsLife {
  import opened Machine
  import opened MfsFormat
  import opened MfsState
  import opened MfsChains
  import opened MfsContents
  import opened MfsReads

  /** Slot `j` keeps its entry, its chain and its bytes. */
  ghost predicate Kept(s: State, cs: Chains, r: State, cs': Chains, j: int) {
    && 0 <= j < MAX_FILES && Filed(s, cs) && Filed(r, cs')
    && r.files[j] == s.files[j] && cs'[j] == cs[j] && Content(r, cs', j) == Content(s, cs, j)
  }

  ghost predicate OthersKept(s: State, cs: Chains, r: State, cs': Chains, i: int) {
    Filed(s, cs) && Filed(r, cs') && forall j :: 0 <= j < MAX_FILES && j != i ==> Kept(s, cs, r, cs', j)
  }

  // ---- write_changes ---------------------------------------------------------------------------

  /** The root, bitmap and table sectors lie outside the data region, so no chain notices. */
  lemma SyncKeeps(s: State, cs: Chains)
    requires Filed(s, cs)
    ensures OthersKept(s, cs, WriteChanges(s), cs, -1)
  {
    var r := WriteChanges(s);
    forall j | 0 <= j < MAX_FILES
      ensures SlotSound(r, j, cs[j]) && Bytes(r.disk, cs[j], s.files[j].size) == Content(s, cs, j)
    {
      assert SlotSound(s, j, cs[j]);
      ChainElsewhere(s.disk, r.disk, s.files[j].block, cs[j], s.files[j].size);
    }
  }

  // ---- create ----------------------------------------------------------------------------------------

  lemma AddFileSlot(s: State, cs: Chains, i: int, b: u16, name: CString, flags: u16, j: int)
    requires Filed(s, cs) && 0 <= i < MAX_FILES && 0 <= j < MAX_FILES && s.root.fileCount < s.root.maxFiles
    requires IsData(s.root, b) && !Marked(s.bitmap, b)
    ensures var r := AddFile(s.(bitmap := Mark(s.bitmap, b)), i, b, name, flags);
            && SlotSound(r, j, if j == i then [b] else cs[j])
            && (j != i ==> Bytes(r.disk, cs[j], s.files[j].size) == Content(s, cs, j))
  {
    if j == i {
      MarkMore(s.bitmap, [], b);
      assert [] + [b] == [b];
    } else {
      assert SlotSound(s, j, cs[j]);
      FreshBlock(s, cs, b);
      MarkMore(s.bitmap, cs[j], b);
      ChainElsewhere(s.disk, s.disk[b := BlankBlock()], s.files[j].block, cs[j], s.files[j].size);
    }
  }

  lemma AddApart(s: State, cs: Chains, i: int, b: u16, cs': Chains)
    requires Filed(s, cs) && 0 <= i < MAX_FILES && IsData(s.root, b) && !Marked(s.bitmap, b) && cs' == cs[i := [b]]
    ensures forall j, k :: 0 <= j < k < MAX_FILES ==> Disjoint(cs'[j], cs'[k])
  {
    FreshBlock(s, cs, b);
    forall j, k | 0 <= j < k < MAX_FILES ensures Disjoint(cs'[j], cs'[k]) { assert Disjoint(cs[j], cs[k]); }
  }

  lemma AddFileKeeps(s: State, cs: Chains, i: int, b: u16, name: CString, flags: u16)
    requires Filed(s, cs) && 0 <= i < MAX_FILES && s.root.fileCount < s.root.maxFiles
    requires IsData(s.root, b) && !Marked(s.bitmap, b)
    ensures var r := AddFile(s.(bitmap := Mark(s.bitmap, b)), i, b, name, flags);
            OthersKept(s, cs, r, cs[i := [b]], i) && Content(r, cs[i := [b]], i) == []
  {
    var r, cs' := AddFile(s.(bitmap := Mark(s.bitmap, b)), i, b, name, flags), cs[i := [b]];
    forall j | 0 <= j < MAX_FILES
      ensures SlotSound(r, j, cs'[j]) && (j != i ==> Bytes(r.disk, cs[j], s.files[j].size) == Content(s, cs, j))
    {
      AddFileSlot(s, cs, i, b, name, flags, j);
    }
    AddApart(s, cs, i, b, cs');
  }

  lemma KeptThenSynced(s: State, cs: Chains, m: State, cs': Chains, i: int)
    requires OthersKept(s, cs, m, cs', i) && 0 <= i < MAX_FILES
    ensures OthersKept(s, cs, WriteChanges(m), cs', i)
    ensures Content(WriteChanges(m), cs', i) == Content(m, cs', i)
  {
    SyncKeeps(m, cs');
    assert Kept(m, cs', WriteChanges(m), cs', i);
    forall j | 0 <= j < MAX_FILES && j != i ensures Kept(s, cs, WriteChanges(m), cs', j) {
      assert Kept(s, cs, m, cs', j) && Kept(m, cs', WriteChanges(m), cs', j);
    }
  }

  /** A successful create adds one empty file in a free slot and changes no other. */
  lemma CreateAdds(s: State, cs: Chains, name: CString, flags: u16) returns (cs': Chains)
    requires Filed(s, cs) && Create(s, name, flags).1 != -1
    ensures var (r, i) := Create(s, name, flags);
            && s.files[i].used == 0 && OthersKept(s, cs, r, cs', i) && Content(r, cs', i) == []
            && |cs'[i]| == 1 && cs' == cs[i := cs'[i]]
  {
    var b := AllocBlock(s).1;
    var i := Create(s, name, flags).1;
    AddFileKeeps(s, cs, i, b, name, flags);
    cs' := cs[i := [b]];
    KeptThenSynced(s, cs, AddFile(AllocBlock(s).0, i, b, name, flags), cs', i);
  }

  // ---- delete ----------------------------------------------------------------------------------------

  /** Erasing the first block leaves the rest of the chain a chain. */
  lemma TailChain(disk: seq<Sector>, b: u16, c: seq<u16>)
    requires IsChain(disk, b, c) && NoDup(c) && c != []
    ensures c[0] == b && b !in c[1..] && NoDup(c[1..])
    ensures IsChain(disk[b := ZeroSector()], Next(disk[b]), c[1..])
  {
    var d, t := disk[b := ZeroSector()], c[1..];
    assert Next(disk[c[0]]) == After(c, 0);
    forall j | 0 <= j < |t| ensures Next(d[t[j]]) == After(t, j) {
      assert t[j] == c[j + 1] && Next(disk[c[j + 1]]) == After(c, j + 1);
    }
  }

  /** On a proper chain the walk of `mfs_delete` zeroes and frees exactly the chain's blocks. */
  lemma {:induction false} EraseChain(disk: seq<Sector>, bm: Sector, total: u16, b: u16, c: seq<u16>, x: u16)
    requires total <= |disk| && total <= 8 * SECTOR && IsChain(disk, b, c) && NoDup(c)
    requires forall j :: 0 <= j < |c| ==> c[j] < total
    requires x < 8 * SECTOR && x < |disk|
    ensures var (d, m) := EraseWalk(disk, bm, total, b);
            && d[x] == (if x in c then ZeroSector() else disk[x])
            && (Marked(m, x) <==> Marked(bm, x) && x !in c)
    decreases |c|
  {
    if c != [] {
      TailChain(disk, b, c);
      EraseChain(disk[b := ZeroSector()], Unmark(bm, b), total, Next(disk[b]), c[1..], x);
      assert c == [b] + c[1..];
      UnmarkClears(bm, b, x);
    }
  }

  /** Freeing the blocks of a marked chain raises the free count by its length. */
  lemma {:induction false} EraseCounts(disk: seq<Sector>, bm: Sector, total: u16, lo: u16, b: u16, c: seq<u16>)
    requires total <= |disk| && total <= 8 * SECTOR && IsChain(disk, b, c) && NoDup(c)
    requires AllMarked(bm, c) && forall j :: 0 <= j < |c| ==> lo <= c[j] < total
    ensures FreeIn(EraseWalk(disk, bm, total, b).1, lo, total) == FreeIn(bm, lo, total) + |c|
    decreases |c|
  {
    if c != [] {
      var disk', bm', t := disk[b := ZeroSector()], Unmark(bm, b), c[1..];
      TailChain(disk, b, c);
      forall j | 0 <= j < |t| ensures Marked(bm', t[j]) {
        assert t[j] == c[j + 1];
        UnmarkClears(bm, b, t[j]);
      }
      UnmarkGivesOne(bm, lo, total, b);
      EraseCounts(disk', bm', total, lo, Next(disk[b]), t);
    }
  }

  lemma RemoveOther(s: State, cs: Chains, i: int, j: int)
    requires Filed(s, cs) && 0 <= i < MAX_FILES && 0 <= j < MAX_FILES && i != j
    ensures var (d, m) := EraseWalk(s.disk, s.bitmap, s.root.total, s.files[i].block);
            && IsChain(d, s.files[j].block, cs[j]) && AllMarked(m, cs[j])
            && Bytes(d, cs[j], s.files[j].size) == Content(s, cs, j)
  {
    assert SlotSound(s, i, cs[i]) && SlotSound(s, j, cs[j]);
    var (d, m) := EraseWalk(s.disk, s.bitmap, s.root.total, s.files[i].block);
    assert Disjoint(cs[Min(i, j)], cs[Max(i, j)]);
    forall k | 0 <= k < |cs[j]| ensures d[cs[j][k]] == s.disk[cs[j][k]] && Marked(m, cs[j][k]) {
      EraseChain(s.disk, s.bitmap, s.root.total, s.files[i].block, cs[i], cs[j][k]);
    }
    ChainElsewhere(s.disk, d, s.files[j].block, cs[j], s.files[j].size);
  }

  lemma RemoveSlot(s: State, cs: Chains, i: int, j: int)
    requires Filed(s, cs) && 0 <= i < MAX_FILES && s.root.fileCount > 0 && 0 <= j < MAX_FILES
    ensures var r := RemoveFile(s, i);
            && SlotSound(r, j, if j == i then [] else cs[j])
            && (j != i ==> Bytes(r.disk, cs[j], s.files[j].size) == Content(s, cs, j))
  {
    if j != i {
      assert SlotSound(s, j, cs[j]);
      RemoveOther(s, cs, i, j);
    }
  }

  lemma RemoveKeeps(s: State, cs: Chains, i: int)
    requires Filed(s, cs) && 0 <= i < MAX_FILES && s.root.fileCount > 0
    ensures OthersKept(s, cs, RemoveFile(s, i), cs[i := []], i)
  {
    var r, cs' := RemoveFile(s, i), cs[i := []];
    forall j | 0 <= j < MAX_FILES
      ensures SlotSound(r, j, cs'[j]) && (j != i ==> Bytes(r.disk, cs[j], s.files[j].size) == Content(s, cs, j))
    {
      RemoveSlot(s, cs, i, j);
    }
    forall j, k | 0 <= j < k < MAX_FILES ensures Disjoint(cs'[j], cs'[k]) { assert Disjoint(cs[j], cs[k]); }
  }

  lemma RemoveFrees(s: State, cs: Chains, i: int, b: u16)
    requires Filed(s, cs) && 0 <= i < MAX_FILES && s.root.fileCount > 0 && b < s.root.total
    ensures var r := RemoveFile(s, i);
            && FreeBlocks(r) == FreeBlocks(s) + |cs[i]|
            && (Marked(r.bitmap, b) <==> Marked(s.bitmap, b) && b !in cs[i])
  {
    assert SlotSound(s, i, cs[i]);
    EraseChain(s.disk, s.bitmap, s.root.total, s.files[i].block, cs[i], b);
    EraseCounts(s.disk, s.bitmap, s.root.total, s.root.dataStart, s.files[i].block, cs[i]);
  }

  /**
   Deleting a file frees exactly its chain: every other file keeps its bytes, the free count rises
   by the chain's length, and a block stays marked if and only if it was and is not in the chain.
   */
  lemma DeleteFrees(s: State, cs: Chains, name: CString, b: u16)
    requires Filed(s, cs) && FindFile(s, name) != -1 && b < s.root.total
    ensures var (r, i) := (Delete(s, name).0, FindFile(s, name));
            && OthersKept(s, cs, r, cs[i := []], i) && r.files[i] == ZeroEntry()
            && FreeBlocks(r) == FreeBlocks(s) + |cs[i]|
            && (Marked(r.bitmap, b) <==> Marked(s.bitmap, b) && b !in cs[i])
  {
    var i := FindFile(s, name);
    RemoveFrees(s, cs, i, b);
    RemoveKeeps(s, cs, i);
    KeptThenSynced(s, cs, RemoveFile(s, i), cs[i := []], i);
  }

  /** So the next allocation finds a block, no later than the first one just freed. */
  lemma FreedBlocksReturn(s: State, cs: Chains, name: CString, b: u16)
    requires Filed(s, cs) && FindFile(s, name) != -1 && b in cs[FindFile(s, name)]
    ensures 0 < AllocBlock(Delete(s, name).0).1 <= b
  {
    var i := FindFile(s, name);
    assert SlotSound(s, i, cs[i]);
    assert IsData(s.root, b);
    RemoveFrees(s, cs, i, b);
    assert !Marked(RemoveFile(s, i).bitmap, b);
  }

  // ---- remounting -------------------------------------------------------------------------------------

  lemma SyncedSectors(s: State)
    requires Sane(s)
    ensures var d := WriteChanges(s).disk;
            && d[0] == EncodeRoot(s.root) && d[s.root.bitmapSector] == s.bitmap
            && d[s.root.fentrySector] == EncodeTable(s.files, s.tableRest)
  {
  }

  /** Mounting a synced disk brings back the cached root, bitmap and table, with no file open. */
  lemma RemountRestores(s: State)
    requires Sane(s)
    ensures var d := WriteChanges(s).disk;
            && DecodeRoot(d[0]) == s.root && Geometry(d, s.root)
            && Mount(d) == Mounted(WriteChanges(s).(fds := BootFds()))
  {
    SyncedSectors(s);
    RootRoundTrip(s.root);
    TableRoundTrip(s.files, s.tableRest);
  }

  lemma {:induction false} SameNamesFind(f: seq<FileEntry>, g: seq<FileEntry>, name: CString, i: nat, n: nat)
    requires n <= |f| == |g| && forall j :: 0 <= j < n ==> f[j].name == g[j].name
    ensures FindFrom(f, name, i, n) == FindFrom(g, name, i, n)
    decreases n - i
  {
    if i < n { SameNamesFind(f, g, name, i + 1, n); }
  }

  /** The same chains serve whatever the descriptors are. */
  lemma FdsAside(s: State, cs: Chains, fds: seq<Fd>)
    requires Filed(s, cs) && Sane(s.(fds := fds))
    ensures Filed(s.(fds := fds), cs)
    ensures forall i :: 0 <= i < MAX_FILES ==> Content(s.(fds := fds), cs, i) == Content(s, cs, i)
  {
    forall i | 0 <= i < MAX_FILES ensures SlotSound(s.(fds := fds), i, cs[i]) { assert SlotSound(s, i, cs[i]); }
  }

  /** Where the mounted fields lie on the disk: the root in sector 0, 21 bytes to a table entry. */
  lemma MountedBytes(disk: seq<Sector>, s: State, i: nat)
    requires disk != [] && Mount(disk) == Mounted(s) && i < MAX_FILES
    ensures var b := disk[0];
            && s.disk == disk && b[3] == 0xCD && b[4] == 0xAB
            && s.root.total == b[5] as int + 256 * (b[6] as int)
            && s.root.bitmapSector == b[7] as int + 256 * (b[8] as int)
            && s.root.fentrySector == b[9] as int + 256 * (b[10] as int)
            && s.root.dataStart == b[11] as int + 256 * (b[12] as int)
            && s.root.maxFiles == b[13] as int + 256 * (b[14] as int) && s.root.fileCount == b[15]
    ensures s.root.bitmapSector < |disk| && s.bitmap == disk[s.root.bitmapSector]
    ensures s.root.fentrySector < |disk| && |s.files| == MAX_FILES
    ensures var (t, f, at) := (disk[s.root.fentrySector], s.files[i], 21 * i);
            && f.used == t[at] && f.flags == t[at + 1] && f.id == t[at + 2] && f.name == t[at + 3..at + 15]
            && f.size == t[at + 15] as int + 256 * (t[at + 16] as int)
            && f.blockSize == t[at + 17] as int + 256 * (t[at + 18] as int)
            && f.block == t[at + 19] as int + 256 * (t[at + 20] as int)
    ensures s.fds[0] == Stdin && s.fds[1] == Stdout && s.fds[2] == Stderr
    ensures forall d :: 3 <= d < FD_MAX ==> s.fds[d] == NoFd
  {
    var b := disk[0];
    assert b[3] as int + 256 * (b[4] as int) == 0xABCD;
    EntryAt(disk[s.root.fentrySector], i);
  }

  /** Closing a descriptor and mounting the disk again keeps every file. */
  lemma CloseRemountKeeps(s: State, cs: Chains, fd: int) returns (m: State)
    requires Filed(s, cs) && IsFileFd(s, fd) && 3 <= fd
    ensures Mount(Close(s, fd).0.disk) == Mounted(m)
    ensures m.files == s.files && m.root == s.root && m.fds == BootFds()
    ensures Filed(m, cs) && forall i :: 0 <= i < MAX_FILES ==> Content(m, cs, i) == Content(s, cs, i)
  {
    RemountRestores(s);
    m := WriteChanges(s).(fds := BootFds());
    SyncKeeps(s, cs);
    FdsAside(WriteChanges(s), cs, BootFds());
    assert forall i :: 0 <= i < MAX_FILES ==> Kept(s, cs, WriteChanges(s), cs, i);
  }

  /** After a fresh boot, opening a file for reading and reading it returns its first bytes. */
  lemma BootOpenRead(m: State, cs: Chains, name: CString, junk: u16, count: u16)
    requires Filed(m, cs) && m.fds == BootFds() && FindFile(m, name) != -1
    ensures var (o, fd) := Open(m, name, 0, junk);
            fd == 3 && Read(o, fd, count).1 == ReadBytes(Slice(Content(m, cs, FindFile(m, name)), 0, count))
  {
    var i := FindFile(m, name);
    var e := NewFd(m.files[i], i, 0, junk);
    assert m.fds[3] == NoFd;
    assert !Creat(0) && !Append(0);
    OpenCursor(m, cs, i, 0, junk);
    var o := m.(fds := m.fds[3 := e]);
    FdsAside(m, cs, m.fds[3 := e]);
    OneRead(o, cs, 3, 3, count);
  }

  /**
   Bytes written, closed and remounted come back identical: after the write, the close and the
   reboot, the file reopened under its name reads as its old bytes overlaid with the new ones.
   */
  lemma WriteSurvivesRemount(s: State, cs: Chains, fd: int, data: seq<byte>, name: CString, junk: u16, count: u16)
      returns (m: State)
    requires CanWrite(s, cs, fd) && 3 <= fd && s.fds[fd].Writable()
    requires s.fds[fd].pos + |data| < 0x1_0000 && |data| <= Room(s, cs[s.fds[fd].file], s.fds[fd])
    requires FindFile(s, name) == s.fds[fd].file
    ensures Mount(Close(Write(s, fd, data).0, fd).0.disk) == Mounted(m)
    ensures Sane(m)
    ensures var (o, fd') := Open(m, name, 0, junk);
            Read(o, fd', count).1
            == ReadBytes(Slice(Overlay(Content(s, cs, s.fds[fd].file), s.fds[fd].pos, data), 0, count))
  {
    var i := s.fds[fd].file;
    var cs' := WriteStores(s, cs, fd, data);
    var r := WriteLoop(s, fd, data).0;
    assert data[..|data|] == data;
    m := CloseRemountKeeps(r, cs', fd);
    SameNamesFind(s.files, m.files, name, 0, s.root.fileCount);
    BootOpenRead(m, cs', name, junk, count);
  }

  // ---- the packed table ----------------------------------------------------------------------------------

  /** Lookups scan `filecount` slots, so the used slots must be the first ones. */
  predicate Packed(s: State)
    requires Sane(s)
  {
    forall i :: 0 <= i < MAX_FILES ==> (s.files[i].used != 0 <==> i < s.root.fileCount)
  }

  /** On a packed table a new file takes the next slot and is found again unless its name is too long. */
  lemma CreatePacked(s: State, name: CString, flags: u16)
    requires Sane(s) && Packed(s) && FindFile(s, name) == -1
    requires forall i :: s.root.fileCount <= i < MAX_FILES ==> s.files[i].name[11] == 0
    requires Create(s, name, flags).1 != -1
    ensures var (r, i) := Create(s, name, flags);
            && Packed(r) && i == s.root.fileCount
            && (FindFile(r, name) == i <==> |name| <= 11)
            && (FindFile(r, name) == -1 <==> |name| > 11)
  {
    var (r, i) := Create(s, name, flags);
    assert r.files == s.files[i := r.files[i]] && r.files[i].used == 1;
    assert s.files[s.root.fileCount].used == 0 && i == FreeSlot(s.files, 0, s.root.maxFiles);
    assert i == s.root.fileCount && r.root.fileCount == i + 1;
    assert r.files[i].name == CopyName(s.files[i].name, name);
    StoredNameFound(s.files[i].name, name);
  }

  /** Deleting keeps the table packed exactly when the last file goes; otherwise that one is lost to lookups. */
  lemma DeletePacked(s: State, name: CString)
    requires Sane(s) && Packed(s) && FindFile(s, name) != -1
    ensures var (r, i, last) := (Delete(s, name).0, FindFile(s, name), s.root.fileCount - 1);
            && (Packed(r) <==> i == last)
            && (i != last ==> r.files[last].used != 0 && forall n: CString :: FindFile(r, n) != last)
  {
    var (r, i, last) := (Delete(s, name).0, FindFile(s, name), s.root.fileCount - 1);
    assert r.files == s.files[i := ZeroEntry()] && r.root.fileCount == last;
    assert r.files[i].used == 0 && s.files[last].used != 0;
  }
}
