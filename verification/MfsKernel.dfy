/**
 The filesystem as the kernel runs it: one object whose cached sectors, scratch buffer and
 descriptor table are updated in place, loop by loop. Every entry point is proved to take the
 state to the value its function in MfsState.dfy gives, whatever the scratch buffer held before.
 */
module MfsKernel {
  import opened Machine
  import opened MfsFormat
  import S = MfsState
  import R = MfsReads

  /** After `got` bytes, reading `left` more from `e` completes the read of `count` from `e0`. */
  ghost predicate ReadSoFar(s: S.State, e0: S.Fd, count: nat, e: S.Fd, left: nat, got: seq<byte>)
    requires S.Sane(s) && e0.FileFd? && S.FdSane(e0, s.root.total) && e.FileFd? && S.FdSane(e, s.root.total)
  {
    var r := S.ReadLoop(s, e, left);
    Same(S.ReadLoop(s, e0, count), (r.0, got + r.1))
  }

  lemma ReadRound(s: S.State, e0: S.Fd, count: nat, e: S.Fd, left: nat, got: seq<byte>)
    requires S.Sane(s) && e0.FileFd? && S.FdSane(e0, s.root.total) && e.FileFd? && S.FdSane(e, s.root.total)
    requires ReadSoFar(s, e0, count, e, left, got)
    requires left > 0 && S.AtBlock(s, e) && e.pos < s.files[e.file].size
    ensures var n := S.ReadSpan(s, e, left);
            S.FdSane(S.ReadAdvance(s, e, n), s.root.total)
            && ReadSoFar(s, e0, count, S.ReadAdvance(s, e, n), left - n,
                         got + s.disk[e.cur][HEADER + e.off..HEADER + e.off + n])
  {
    var n := S.ReadSpan(s, e, left);
    var e', chunk := S.ReadAdvance(s, e, n), s.disk[e.cur][HEADER + e.off..HEADER + e.off + n];
    R.ReadTurn(s, e, left, n, e', chunk);
    Associate(got, chunk, S.ReadLoop(s, e', left - n).1);
  }

  lemma ReadStarts(s: S.State, e: S.Fd, count: nat)
    requires S.Sane(s) && e.FileFd? && S.FdSane(e, s.root.total)
    ensures ReadSoFar(s, e, count, e, count, [])
  {
    assert [] + S.ReadLoop(s, e, count).1 == S.ReadLoop(s, e, count).1;
  }

  lemma ReadEnds(s: S.State, e0: S.Fd, count: nat, e: S.Fd, left: nat, got: seq<byte>)
    requires S.Sane(s) && e0.FileFd? && S.FdSane(e0, s.root.total) && e.FileFd? && S.FdSane(e, s.root.total)
    requires ReadSoFar(s, e0, count, e, left, got)
    requires !(left > 0 && S.AtBlock(s, e) && e.pos < s.files[e.file].size)
    ensures S.ReadLoop(s, e0, count) == (e, got)
  {
    assert got + [] == got;
  }

  lemma Associate(a: seq<byte>, b: seq<byte>, c: seq<byte>)
    ensures a + (b + c) == a + b + c
  {
  }

  /** After the bytes `mem`, loading `left` more from `sector` on completes `all`. */
  ghost predicate LoadSoFar(s: S.State, sector: u16, left: int, mem: seq<byte>, all: R.LoadResult)
    requires S.Sane(s)
  {
    && (left < 0 ==> mem == [])
    && match R.LoadLoop(s, s.root.total, sector, left)
       case Loaded(rest) => all == R.Loaded(mem + rest)
       case other => all == other
  }

  lemma LoadTurn(s: S.State, sector: u16, left: int, mem: seq<byte>, all: R.LoadResult, n: nat)
    requires S.Sane(s) && LoadSoFar(s, sector, left, mem, all)
    requires left > 0 && 0 < sector < s.root.total && n == Min(left, PAYLOAD)
    ensures LoadSoFar(s, Next(s.disk[sector]), left - n, mem + s.disk[sector][HEADER..HEADER + n], all)
  {
    var r := R.LoadLoop(s, s.root.total, Next(s.disk[sector]), left - n);
    if r.Loaded? { Associate(mem, s.disk[sector][HEADER..HEADER + n], r.bytes); }
  }

  /** One turn of the write loop, when the disk is full and when it is not. */
  lemma WriteStops(s: S.State, fd: int, data: seq<byte>)
    requires S.Sane(s) && S.IsFileFd(s, fd) && data != [] && !S.EnsureBlock(s, fd).1
    ensures S.WriteLoop(s, fd, data) == (S.EnsureBlock(s, fd).0, false)
  {
  }

  lemma WriteTurn(s: S.State, fd: int, data: seq<byte>, s1: S.State, n: nat, s2: S.State)
    requires S.Sane(s) && S.IsFileFd(s, fd) && data != [] && S.EnsureBlock(s, fd) == (s1, true)
    requires n == S.WriteSpan(s1.fds[fd], data) && s2 == S.PutChunk(s1, fd, data[..n])
    ensures S.WriteLoop(s, fd, data) == S.WriteLoop(s2, fd, data[n..])
  {
  }

  class Kernel {
    var disk: seq<Sector>
    var bitmap: Sector
    var root: Root
    var files: seq<FileEntry>
    var tableRest: TableRest
    var fds: seq<S.Fd>
    var tempbuf: Sector

    function State(): S.State
      reads this
    {
      S.State(disk, bitmap, root, files, tableRest, fds)
    }

    predicate Valid()
      reads this
    {
      S.Sane(State())
    }

    /** A machine with a disk in it, nothing loaded yet. */
    constructor (d: seq<Sector>)
      requires |d| > 0
      ensures disk == d
    {
      disk, root, bitmap, tempbuf := d, DecodeRoot(d[0]), d[0], d[0];
      files, tableRest, fds := [], seq(8, _ => 0), [];
    }

    /** `mfs_init` and `fd_init`; -1 when the disk is not one of these. */
    method Init() returns (code: int)
      requires |disk| > 0
      modifies this
      ensures disk == old(disk) && (code == 0 <==> S.Mount(disk).Mounted?) && (code != 0 ==> code == -1)
      ensures code == 0 ==> State() == S.Mount(disk).state && (S.Geometry(disk, root) ==> Valid())
    {
      DiskRead(0);
      root := DecodeRoot(tempbuf);
      if root.checksum != CHECKSUM {
        return -1;
      }
      if root.bitmapSector >= |disk| || root.fentrySector >= |disk| {
        return -1;
      }
      DiskRead(root.bitmapSector);
      bitmap := tempbuf;
      DiskRead(root.fentrySector);
      var table := DecodeTable(tempbuf);
      files, tableRest := table.0, table.1;
      fds := S.BootFds();
      return 0;
    }

    method DiskRead(sector: u16)
      requires sector < |disk|
      modifies this`tempbuf
      ensures tempbuf == disk[sector]
    {
      tempbuf := disk[sector];
    }

    method DiskWrite(buf: Sector, sector: u16)
      requires sector < |disk|
      modifies this`disk
      ensures disk == old(disk)[sector := buf]
    {
      disk := disk[sector := buf];
    }

    method WriteChanges()
      requires S.Regions(disk, root) && |files| == MAX_FILES
      modifies this`disk
      ensures State() == S.WriteChanges(old(State()))
    {
      DiskWrite(EncodeRoot(root), 0);
      DiskWrite(bitmap, root.bitmapSector);
      DiskWrite(EncodeTable(files, tableRest), root.fentrySector);
    }

    method AllocBlock() returns (b: u16)
      requires Valid()
      modifies this`bitmap
      ensures Valid() && (State(), b) == S.AllocBlock(old(State()))
    {
      var block := root.dataStart;
      while block < root.total
        invariant root.dataStart <= block <= root.total
        invariant S.FirstFree(bitmap, root.dataStart, root.total) == S.FirstFree(bitmap, block, root.total)
        invariant State() == old(State())
      {
        if !Marked(bitmap, block) {
          bitmap := Mark(bitmap, block);
          return block;
        }
        block := block + 1;
      }
      return 0;
    }

    method FindFile(name: CString) returns (slot: int)
      requires Valid()
      ensures slot == S.FindFile(State(), name)
    {
      var i := 0;
      while i < root.fileCount
        invariant 0 <= i <= root.fileCount
        invariant S.FindFile(State(), name) == S.FindFrom(files, name, i, root.fileCount)
      {
        if SameName(name, files[i].name) {
          return i;
        }
        i := i + 1;
      }
      return -1;
    }

    /** The loop for an unused slot. */
    method FreeSlot() returns (index: nat)
      requires Valid()
      ensures index == S.FreeSlot(files, 0, root.maxFiles)
    {
      index := 0;
      while index < root.maxFiles && files[index].used != 0
        invariant 0 <= index <= root.maxFiles
        invariant S.FreeSlot(files, 0, root.maxFiles) == S.FreeSlot(files, index, root.maxFiles)
      {
        index := index + 1;
      }
    }

    /** The entry and the first block of a new file, written through. */
    method AddFile(index: nat, block: u16, name: CString, flags: u16)
      requires Valid() && index < MAX_FILES && root.dataStart <= block < root.total && root.fileCount < root.maxFiles
      modifies this`disk, this`files, this`root, this`tempbuf
      ensures State() == S.WriteChanges(S.AddFile(old(State()), index, block, name, flags))
    {
      var f := files[index];
      files := files[index := FileEntry(1, flags % 256, f.id, CopyName(f.name, name), 0, 0, block)];
      tempbuf := BlankBlock();
      DiskWrite(tempbuf, block);
      root := root.(fileCount := root.fileCount + 1);
      WriteChanges();
    }

    method Create(name: CString, flags: u16) returns (slot: int)
      requires Valid()
      modifies this
      ensures Valid() && (State(), slot) == S.Create(old(State()), name, flags)
    {
      var block := AllocBlock();
      if block == 0 || root.fileCount >= root.maxFiles {
        return -1;
      }
      var index := FreeSlot();
      if index == root.maxFiles {
        return -1;
      }
      AddFile(index, block, name, flags);
      return index;
    }

    method AllocFd() returns (fd: int)
      requires Valid()
      ensures fd == S.FirstFd(fds, 3)
    {
      var i := 3;
      while i < |fds|
        invariant 3 <= i <= |fds|
        invariant S.FirstFd(fds, 3) == S.FirstFd(fds, i)
      {
        if fds[i] == S.NoFd {
          return i;
        }
        i := i + 1;
      }
      return -1;
    }

    /** The descriptor of a file just opened: access, position, and the cursor at its first block. */
    method NewEntry(slot: nat, flags: u16, junk: u16) returns (e: S.Fd)
      requires slot < |files|
      ensures e == S.NewFd(files[slot], slot, flags, junk)
    {
      var acc := flags % 4;
      var mode, pos := S.NoAccess, junk;
      if acc == 0 {
        mode, pos := S.ReadOnly, 0;
      } else if acc == 1 || acc == 2 {
        mode := if acc == 1 then S.WriteOnly else S.ReadWrite;
        pos := if S.Append(flags) then files[slot].size else 0;
      }
      return S.FileFd(mode, pos, files[slot].block, 0, 0, slot);
    }

    method Open(name: CString, flags: u16, junk: u16) returns (fd: int)
      requires Valid()
      modifies this
      ensures Valid() && (State(), fd) == S.Open(old(State()), name, flags, junk)
    {
      var slot := FindFile(name);
      if slot == -1 && S.Creat(flags) {
        slot := Create(name, flags);
      }
      if slot == -1 {
        return -1;
      }
      fd := AllocFd();
      if fd != -1 {
        var entry := NewEntry(slot, flags, junk);
        fds := fds[fd := entry];
      }
    }

    method Close(fd: int) returns (code: int)
      requires Valid()
      modifies this`disk, this`fds
      ensures Valid() && (State(), code) == S.Close(old(State()), fd)
    {
      if fd < 3 || fd >= S.FD_MAX {
        return 1;
      }
      if fds[fd].FileFd? {
        WriteChanges();
      }
      fds := fds[fd := S.NoFd];
      return 0;
    }

    method CloseFile(fd: int) returns (code: int)
      requires Valid()
      modifies this`disk, this`fds
      ensures Valid() && (State(), code) == S.CloseFile(old(State()), fd)
    {
      if fd < 0 || fd >= S.FD_MAX {
        return -1;
      }
      code := Close(fd);
    }

    /** One round of a read: the bytes of the current block, and the descriptor after them. */
    method TakeChunk(e: S.Fd, remaining: nat) returns (chunk: seq<byte>, e': S.Fd)
      requires Valid() && e.FileFd? && S.FdSane(e, root.total) && remaining > 0
      requires S.AtBlock(State(), e) && e.pos < files[e.file].size
      modifies this`tempbuf
      ensures var n := S.ReadSpan(State(), e, remaining);
              chunk == disk[e.cur][HEADER + e.off..HEADER + e.off + n] && e' == S.ReadAdvance(State(), e, n)
    {
      DiskRead(e.cur);
      var available := PAYLOAD - e.off;
      var toRead := if remaining < available then remaining else available;
      var left := files[e.file].size - e.pos;
      if left < toRead {
        toRead := left;
      }
      chunk := tempbuf[HEADER + e.off..HEADER + e.off + toRead];
      e' := e.(pos := e.pos + toRead, off := e.off + toRead);
      if e'.off >= PAYLOAD {
        e' := e'.(off := 0, cur := Next(tempbuf));
      }
    }

    /** The read loop. */
    method ReadAll(e0: S.Fd, count: nat) returns (e: S.Fd, buf: seq<byte>)
      requires Valid() && e0.FileFd? && S.FdSane(e0, root.total)
      modifies this`tempbuf
      ensures (e, buf) == S.ReadLoop(State(), e0, count)
    {
      ghost var s := State();
      var remaining: int := count;
      e, buf := e0, [];
      ReadStarts(s, e0, count);
      while remaining > 0 && 0 < e.cur < root.total && e.pos < files[e.file].size
        invariant State() == s && 0 <= remaining && e.FileFd? && S.FdSane(e, root.total)
        invariant ReadSoFar(s, e0, count, e, remaining, buf)
        decreases remaining
      {
        ReadRound(s, e0, count, e, remaining, buf);
        var chunk, e' := TakeChunk(e, remaining);
        buf, remaining, e := buf + chunk, remaining - |chunk|, e';
      }
      ReadEnds(s, e0, count, e, remaining, buf);
    }

    method Read(fd: int, count: u16) returns (r: S.ReadResult)
      requires Valid()
      modifies this`fds, this`tempbuf
      ensures Valid() && (State(), r) == S.Read(old(State()), fd, count)
    {
      if !S.IsFileFd(State(), fd) || !fds[fd].Readable() {
        return S.ReadFailed;
      }
      var e, buf := ReadAll(fds[fd], count);
      fds := fds[fd := e];
      return S.ReadBytes(buf);
    }

    /** The inner half of a write round: a block to write to, or false when the disk is full. */
    method EnsureBlock(fd: int) returns (ok: bool)
      requires Valid() && S.IsFileFd(State(), fd)
      modifies this
      ensures Valid() && S.IsFileFd(State(), fd) && (State(), ok) == S.EnsureBlock(old(State()), fd)
    {
      var e := fds[fd];
      if 0 < e.cur < root.total {
        return true;
      }
      var block := AllocBlock();
      if block == 0 {
        return false;
      }
      tempbuf := BlankBlock();
      DiskWrite(tempbuf, block);
      if e.prev != 0 {
        var temp := SetNext(disk[e.prev], block);
        DiskWrite(temp, e.prev);
      } else {
        files := files[e.file := files[e.file].(block := block)];
      }
      fds := fds[fd := e.(cur := block, off := 0)];
      return true;
    }

    /** The outer half: fill the current block, move the cursor, grow the size. */
    method PutChunk(fd: int, chunk: seq<byte>)
      requires Valid() && S.IsFileFd(State(), fd) && S.AtBlock(State(), fds[fd])
      requires fds[fd].off + |chunk| <= PAYLOAD
      modifies this
      ensures Valid() && S.IsFileFd(State(), fd) && State() == S.PutChunk(old(State()), fd, chunk)
    {
      var e := fds[fd];
      DiskRead(e.cur);
      tempbuf := Patch(tempbuf, e.off, chunk);
      DiskWrite(tempbuf, e.cur);
      var e' := e.(pos := (e.pos + |chunk|) % 0x1_0000, off := e.off + |chunk|);
      if e'.pos > files[e.file].size {
        files := files[e.file := files[e.file].(size := e'.pos)];
      }
      if e'.off >= PAYLOAD {
        var next := Next(tempbuf);
        e' := e'.(prev := e.cur, cur := next, off := 0);
      }
      fds := fds[fd := e'];
    }

    /** One round of a write: how many bytes are now written, or false when the disk is full. */
    method WriteRound(fd: int, data: seq<byte>, written: nat) returns (ok: bool, now: nat)
      requires Valid() && S.IsFileFd(State(), fd) && written < |data|
      modifies this
      ensures Valid() && S.IsFileFd(State(), fd)
      ensures !ok ==> S.WriteLoop(old(State()), fd, data[written..]) == (State(), false)
      ensures ok ==> written < now <= |data|
      ensures ok ==> S.WriteLoop(old(State()), fd, data[written..]) == S.WriteLoop(State(), fd, data[now..])
    {
      now := written;
      ok := EnsureBlock(fd);
      if !ok {
        WriteStops(old(State()), fd, data[written..]);
        return;
      }
      ghost var s1 := State();
      var space := PAYLOAD - fds[fd].off;
      var n := if |data| - written < space then |data| - written else space;
      PutChunk(fd, data[written..][..n]);
      WriteTurn(old(State()), fd, data[written..], s1, n, State());
      assert data[written..][n..] == data[written + n..];
      now := written + n;
    }

    /** The write loop. */
    method WriteAll(fd: int, data: seq<byte>) returns (ok: bool)
      requires Valid() && S.IsFileFd(State(), fd)
      modifies this
      ensures Valid() && (State(), ok) == S.WriteLoop(old(State()), fd, data)
    {
      ghost var all := S.WriteLoop(State(), fd, data);
      var written := 0;
      assert data[0..] == data;
      while written < |data|
        invariant 0 <= written <= |data| && Valid() && S.IsFileFd(State(), fd)
        invariant all == S.WriteLoop(State(), fd, data[written..])
      {
        ok, written := WriteRound(fd, data, written);
        if !ok {
          return;
        }
      }
      return true;
    }

    method Write(fd: int, data: seq<byte>) returns (r: int)
      requires Valid() && |data| < 0x1_0000
      modifies this
      ensures Valid() && (State(), r) == S.Write(old(State()), fd, data)
    {
      if !S.IsFileFd(State(), fd) || !fds[fd].Writable() {
        return -1;
      }
      var ok := WriteAll(fd, data);
      return if ok then Int16(|data|) else -1;
    }

    method Seek(fd: int, pos: u16, whence: int, junk: u16) returns (r: int)
      requires Valid()
      modifies this`fds, this`tempbuf
      ensures Valid() && (State(), r) == S.Seek(old(State()), fd, pos, whence, junk)
    {
      if !S.IsFileFd(State(), fd) {
        return -1;
      }
      var e := fds[fd];
      var block: u16 := files[e.file].block;
      var offset: u16 := junk;
      if whence == S.SEEK_SET {
        offset := pos;
      } else if whence == S.SEEK_CUR {
        offset := (e.pos + pos) % 0x1_0000;
      } else if whence == S.SEEK_END {
        offset := (files[e.file].size + pos) % 0x1_0000;
      }
      ghost var s, b0, o0 := State(), block, offset;
      while offset >= PAYLOAD && 0 < block < root.total
        invariant State() == s && S.SeekWalk(s, b0, o0) == S.SeekWalk(s, block, offset)
        decreases offset
      {
        DiskRead(block);
        block := Next(tempbuf);
        offset := offset - PAYLOAD;
      }
      fds := fds[fd := e.(pos := pos, cur := block, off := offset)];
      return Int16(pos);
    }

    /** The walk that zeroes and frees a file's blocks. */
    method Erase(head: u16)
      requires Valid()
      modifies this`disk, this`bitmap, this`tempbuf
      ensures (disk, bitmap) == S.EraseWalk(old(disk), old(bitmap), root.total, head)
    {
      var block: u16 := head;
      while 0 < block < root.total
        invariant |disk| == |old(disk)|
        invariant S.EraseWalk(old(disk), old(bitmap), root.total, head) == S.EraseWalk(disk, bitmap, root.total, block)
        decreases S.Linked(disk, root.total), if block == 0 then 0 else 1
      {
        DiskRead(block);
        var next := Next(tempbuf);
        S.LinkedZeroed(disk, block, root.total);
        DiskWrite(ZeroSector(), block);
        bitmap := Unmark(bitmap, block);
        block := next;
      }
    }

    method Delete(name: CString) returns (code: int)
      requires Valid()
      modifies this
      ensures Valid() && (State(), code) == S.Delete(old(State()), name)
    {
      var i := FindFile(name);
      if i == -1 {
        return -1;
      }
      Erase(files[i].block);
      files := files[i := ZeroEntry()];
      root := root.(fileCount := root.fileCount - 1);
      WriteChanges();
      return 0;
    }

    method LoadExecutable(name: CString) returns (r: R.LoadResult)
      requires Valid()
      modifies this`tempbuf
      ensures State() == old(State()) && r == R.LoadExecutable(State(), name)
    {
      var i := FindFile(name);
      if i == -1 {
        return R.NotFound;
      }
      var remaining, sector: u16 := Int16(files[i].size), files[i].block;
      var mem: seq<byte> := [];
      ghost var s, all := State(), R.LoadLoop(State(), root.total, sector, remaining);
      while remaining != 0 && 0 < sector < root.total
        invariant State() == s && LoadSoFar(s, sector, remaining, mem, all)
        decreases if remaining < 0 then 0 else remaining
      {
        if remaining < 0 {
          return R.Overrun;
        }
        var n := if remaining > PAYLOAD then PAYLOAD else remaining;
        LoadTurn(s, sector, remaining, mem, all, n);
        DiskRead(sector);
        mem := mem + tempbuf[HEADER..HEADER + n];
        remaining := remaining - n;
        sector := Next(tempbuf);
      }
      assert mem + [] == mem;
      return R.Loaded(mem);
    }
  }
}
