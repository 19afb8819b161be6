/**
 What the departures look like from outside: how reads and seeks leave a descriptor that spoils the next
 write, where the bytes of an append go, and what a read returns after SEEK_CUR or SEEK_END.
 */
module MfsMisplaced {
  import opened Machine
  import opened MfsFormat
  import opened MfsState
  import opened MfsChains
  import opened MfsContents
  import opened MfsReads
  import opened MfsLife
  import opened MfsStale

  // ---- where stale descriptors come from ------------------------------------------------------------

  /**
   Reading a file whose last block is full to its end: the next write goes wrong unless an earlier write
   left `prev_block` right.
   */
  lemma ReadGoesStale(s: State, cs: Chains, fd: int, count: u16)
    requires CanRead(s, cs, fd) && (s.fds[fd].prev != 0 ==> Marked(s.bitmap, s.fds[fd].prev))
    requires var e := s.fds[fd];
             var size := s.files[e.file].size;
             size == PAYLOAD * |cs[e.file]| && e.pos <= size <= e.pos + count
    ensures Stale(Read(s, fd, count).0, cs, fd) <==> s.fds[fd].prev != Last(cs[s.fds[fd].file])
  {
    var r := Read(s, fd, count).0;
    OneRead(s, cs, fd, fd, count);
    ReadReturns(s, cs, s.fds[fd], count);
    assert r.fds[fd].pos == s.files[s.fds[fd].file].size;
    assert r.fds[fd].cur == 0 && r.fds[fd].prev == s.fds[fd].prev;
  }

  /** A seek to that end does the same. */
  lemma SeekGoesStale(s: State, cs: Chains, fd: int, pos: u16, junk: u16)
    requires Filed(s, cs) && IsFileFd(s, fd) && (s.fds[fd].prev != 0 ==> Marked(s.bitmap, s.fds[fd].prev))
    requires var i := s.fds[fd].file; pos == s.files[i].size == PAYLOAD * |cs[i]|
    ensures Stale(Seek(s, fd, pos, SEEK_SET, junk).0, cs, fd) <==> s.fds[fd].prev != Last(cs[s.fds[fd].file])
  {
    var r := Seek(s, fd, pos, SEEK_SET, junk).0;
    SeekCursor(s, cs, fd, pos, SEEK_SET, junk);
    FdsAside(s, cs, r.fds);
  }

  // ---- append ---------------------------------------------------------------------------------------------

  /**
   Two volumes that differ only in what a descriptor says its position is, `n` bytes apart, and in the
   size recorded for its file.
   */
  ghost predicate Twin(s: State, s0: State, fd: int, n: nat) {
    && Sane(s) && Sane(s0) && IsFileFd(s, fd) && IsFileFd(s0, fd)
    && var e, e0 := s.fds[fd], s0.fds[fd];
    && e.pos == e0.pos + n && e0 == e.(pos := e0.pos)
    && s0 == s.(fds := s.fds[fd := e0], files := s.files[e.file := s0.files[e.file]])
    && s0.files[e.file] == s.files[e.file].(size := s0.files[e.file].size) && s.files[e.file].size == e.pos
  }

  lemma TwinEnsure(s: State, s0: State, fd: int, n: nat)
    requires Twin(s, s0, fd, n)
    ensures EnsureBlock(s, fd).1 == EnsureBlock(s0, fd).1
    ensures Twin(EnsureBlock(s, fd).0, EnsureBlock(s0, fd).0, fd, n)
    ensures EnsureBlock(s, fd).0.fds[fd].pos == s.fds[fd].pos
  {
  }

  lemma TwinPut(s: State, s0: State, fd: int, n: nat, chunk: seq<byte>)
    requires Twin(s, s0, fd, n) && AtBlock(s, s.fds[fd])
    requires s.fds[fd].off + |chunk| <= PAYLOAD && s.fds[fd].pos + |chunk| < 0x1_0000
    ensures Twin(PutChunk(s, fd, chunk), PutChunk(s0, fd, chunk), fd, n)
    ensures PutChunk(s, fd, chunk).fds[fd].pos == s.fds[fd].pos + |chunk|
  {
  }

  /** They stay twins: a write goes by the cursor, not by the position. */
  lemma {:induction false} TwinWrites(s: State, s0: State, fd: int, n: nat, data: seq<byte>)
    requires Twin(s, s0, fd, n) && s.fds[fd].pos + |data| < 0x1_0000
    ensures WriteLoop(s, fd, data).1 == WriteLoop(s0, fd, data).1
    ensures Twin(WriteLoop(s, fd, data).0, WriteLoop(s0, fd, data).0, fd, n)
    decreases |data|
  {
    if data != [] {
      TwinEnsure(s, s0, fd, n);
      var (s1, ok) := EnsureBlock(s, fd);
      if ok {
        var t1 := EnsureBlock(s0, fd).0;
        var k := WriteSpan(s1.fds[fd], data);
        TwinPut(s1, t1, fd, n, data[..k]);
        TwinWrites(PutChunk(s1, fd, data[..k]), PutChunk(t1, fd, data[..k]), fd, n, data[k..]);
      }
    }
  }

  /** An append descriptor, and the same one opened for plain writing. */
  lemma AppendTwin(s: State, cs: Chains, fd: int)
    requires Filed(s, cs) && IsFileFd(s, fd)
    requires var e := s.fds[fd];
             e.pos == s.files[e.file].size && e.cur == s.files[e.file].block && e.prev == 0 && e.off == 0
    ensures var e := s.fds[fd];
            var s0 := s.(fds := s.fds[fd := e.(pos := 0)]);
            Twin(s, s0, fd, e.pos) && CanWrite(s0, cs, fd) && Content(s0, cs, e.file) == Content(s, cs, e.file)
  {
    var e := s.fds[fd];
    assert SlotSound(s, e.file, cs[e.file]);
    FdsAside(s, cs, s.fds[fd := e.(pos := 0)]);
  }

  /** The descriptor that opening for append gives: the position at the end, the cursor at the start. */
  lemma AppendOpens(s: State, cs: Chains, name: CString, flags: u16, junk: u16)
    requires Filed(s, cs) && FindFile(s, name) != -1 && flags % 4 in {1, 2} && flags / 8 % 2 == 1
    requires Open(s, name, flags, junk).1 != -1
    ensures var (o, fd) := Open(s, name, flags, junk);
            && IsFileFd(o, fd) && o == s.(fds := o.fds) && o.fds[fd].Writable() && Filed(o, cs)
            && FreeBlocks(o) == FreeBlocks(s)
            && var e := o.fds[fd];
            && e.file == FindFile(s, name) && e.pos == s.files[e.file].size && e.cur == s.files[e.file].block
            && e.prev == 0 && e.off == 0 && Content(o, cs, e.file) == Content(s, cs, e.file)
  {
    FlagBits(flags);
    FdsAside(s, cs, Open(s, name, flags, junk).0.fds);
  }

  lemma AppendWrites(s: State, cs: Chains, fd: int, data: seq<byte>) returns (c: seq<u16>)
    requires Filed(s, cs) && IsFileFd(s, fd)
    requires var e := s.fds[fd];
             && e.pos == s.files[e.file].size && e.cur == s.files[e.file].block && e.prev == 0 && e.off == 0
             && e.pos + |data| < 0x1_0000 && |data| <= PAYLOAD * (|cs[e.file]| + FreeBlocks(s))
    ensures var (r, i, n) := (WriteLoop(s, fd, data).0, s.fds[fd].file, s.fds[fd].pos);
            && WriteLoop(s, fd, data).1 && r.files[i].size == n + |data|
            && SlotSound(r, i, c) && Max(n, |data|) <= PAYLOAD * |c|
            && Bytes(r.disk, c, Max(n, |data|)) == Overlay(Content(s, cs, i), 0, data)
  {
    var e := s.fds[fd];
    var s0 := s.(fds := s.fds[fd := e.(pos := 0)]);
    AppendTwin(s, cs, fd);
    TwinWrites(s, s0, fd, e.pos, data);
    assert data[..|data|] == data;
    var cs' := WriteStores(s0, cs, fd, data);
    c := cs'[e.file];
    var r0 := WriteLoop(s0, fd, data).0;
    assert SlotSound(r0, e.file, c);
  }

  /**
   Main result: bytes written to a file of `n` bytes opened for append overlay it from its start, and its
   recorded size becomes `n` plus their number.
   */
  lemma AppendOverlaysFront(s: State, cs: Chains, name: CString, flags: u16, junk: u16, data: seq<byte>)
      returns (c: seq<u16>)
    requires Filed(s, cs) && FindFile(s, name) != -1 && flags % 4 in {1, 2} && flags / 8 % 2 == 1
    requires Open(s, name, flags, junk).1 != -1
    requires var i := FindFile(s, name);
             s.files[i].size + |data| < 0x1_0000 && |data| <= PAYLOAD * (|cs[i]| + FreeBlocks(s))
    ensures var (o, fd) := Open(s, name, flags, junk);
            var (r, i, n) := (Write(o, fd, data), FindFile(s, name), s.files[FindFile(s, name)].size);
            && r.1 == Int16(|data|) && r.0.files[i].size == n + |data|
            && SlotSound(r.0, i, c) && Max(n, |data|) <= PAYLOAD * |c|
            && Bytes(r.0.disk, c, Max(n, |data|)) == Overlay(Content(s, cs, i), 0, data)
  {
    AppendOpens(s, cs, name, flags, junk);
    var (o, fd) := Open(s, name, flags, junk);
    c := AppendWrites(o, cs, fd, data);
  }

  // ---- what a write returns ---------------------------------------------------------------------------------

  /**
   The count comes back in a 16-bit `int`: it is right for fewer than 32768 bytes only, and 65535 stored
   bytes are reported as a full disk.
   */
  lemma WriteTells(s: State, fd: int, data: seq<byte>)
    requires Sane(s) && |data| < 0x1_0000 && IsFileFd(s, fd) && s.fds[fd].Writable()
    ensures var stored := WriteLoop(s, fd, data).1;
            && (Write(s, fd, data).1 == |data| <==> stored && |data| < 0x8000)
            && (Write(s, fd, data).1 == -1 <==> !stored || |data| == 0xFFFF)
  {
  }

  // ---- reading after a misplaced seek ----------------------------------------------------------------------

  /** All the bytes a chain has room for, beyond the file's end included. */
  function Raw(s: State, cs: Chains, i: int): seq<byte>
    requires Filed(s, cs) && 0 <= i < MAX_FILES
  {
    assert SlotSound(s, i, cs[i]);
    Bytes(s.disk, cs[i], PAYLOAD * |cs[i]|)
  }

  /** The cursor of `e` is in block `k` of its chain, whatever its position, or at the chain's end. */
  predicate InBlock(e: Fd, c: seq<u16>, k: nat) {
    e.FileFd? && if k < |c| then e.cur == c[k] && e.off < PAYLOAD else k == |c| && e.cur == 0 && e.off == 0
  }

  function CursorOffset(e: Fd, k: nat): nat
    requires e.FileFd?
  {
    PAYLOAD * k + e.off
  }

  /** The block of the cursor after `n` more bytes. */
  function BlockAfter(e: Fd, k: nat, n: nat): nat
    requires e.FileFd?
  {
    if e.off + n >= PAYLOAD then k + 1 else k
  }

  lemma RawAdvanced(s: State, cs: Chains, e: Fd, k: nat, n: nat)
    requires Filed(s, cs) && e.FileFd? && 0 <= e.file < MAX_FILES && InBlock(e, cs[e.file], k) && AtBlock(s, e)
    requires e.off + n <= PAYLOAD && e.pos + n < 0x1_0000
    ensures var m := ReadAdvance(s, e, n);
            && InBlock(m, cs[e.file], BlockAfter(e, k, n))
            && CursorOffset(m, BlockAfter(e, k, n)) == CursorOffset(e, k) + n <= PAYLOAD * |cs[e.file]|
  {
    var c := cs[e.file];
    assert SlotSound(s, e.file, c);
    assert k < |c| && Next(s.disk[c[k]]) == After(c, k);
  }

  lemma RawSlice(s: State, cs: Chains, e: Fd, k: nat, n: nat)
    requires Filed(s, cs) && e.FileFd? && 0 <= e.file < MAX_FILES && InBlock(e, cs[e.file], k) && AtBlock(s, e)
    requires e.off + n <= PAYLOAD
    ensures s.disk[e.cur][HEADER + e.off..HEADER + e.off + n] == Slice(Raw(s, cs, e.file), CursorOffset(e, k), n)
  {
    var all, t := Raw(s, cs, e.file), CursorOffset(e, k);
    assert SlotSound(s, e.file, cs[e.file]) && k < |cs[e.file]|;
    forall j | t <= j < t + n ensures all[j] == s.disk[e.cur][HEADER + e.off + (j - t)] {
      assert j / PAYLOAD == k && j % PAYLOAD == e.off + (j - t);
    }
  }

  /** How many bytes a read may return. */
  function Quota(s: State, e: Fd, count: nat): nat
    requires e.FileFd? && 0 <= e.file < |s.files|
  {
    Min(count, Max(s.files[e.file].size - e.pos, 0))
  }

  lemma QuotaTurn(s: State, e: Fd, count: nat, n: nat, m: Fd)
    requires Sane(s) && FdSane(e, s.root.total) && e.FileFd? && AtBlock(s, e) && Quota(s, e, count) > 0
    requires n == ReadSpan(s, e, count) && m == ReadAdvance(s, e, n)
    ensures Quota(s, e, count) == n + Quota(s, m, count - n)
  {
  }

  lemma SlicesJoin(all: seq<byte>, t: nat, n: nat, k: nat)
    requires t + n <= |all|
    ensures Slice(all, t, n) + Slice(all, t + n, k) == Slice(all, t, n + k)
  {
    SliceTwice(all, t, n, k);
  }

  /** Without a block the cursor is at the end of the chain. */
  lemma OffChain(s: State, cs: Chains, e: Fd, k: nat)
    requires Filed(s, cs) && e.FileFd? && 0 <= e.file < MAX_FILES && InBlock(e, cs[e.file], k) && !AtBlock(s, e)
    ensures CursorOffset(e, k) == |Raw(s, cs, e.file)|
  {
    assert SlotSound(s, e.file, cs[e.file]);
  }

  /** The read loop returns bytes of `all` from offset `t` on, as many as it may. */
  ghost predicate Returns(s: State, e: Fd, all: seq<byte>, t: nat, count: nat)
    requires Sane(s) && FdSane(e, s.root.total) && e.FileFd?
  {
    Same(ReadLoop(s, e, count).1, Slice(all, t, Quota(s, e, count)))
  }

  lemma ReturnsNothing(s: State, e: Fd, all: seq<byte>, t: nat, count: nat)
    requires Sane(s) && FdSane(e, s.root.total) && e.FileFd?
    requires Quota(s, e, count) == 0 || (!AtBlock(s, e) && t == |all|)
    ensures Returns(s, e, all, t, count)
  {
    assert Slice(all, t, Quota(s, e, count)) == [];
    assert ReadLoop(s, e, count).1 == [];
  }

  lemma ReturnsTurn(s: State, e: Fd, all: seq<byte>, t: nat, count: nat, m: Fd, n: nat, chunk: seq<byte>)
    requires Sane(s) && FdSane(e, s.root.total) && e.FileFd? && AtBlock(s, e) && Quota(s, e, count) > 0
    requires n == ReadSpan(s, e, count) && m == ReadAdvance(s, e, n) && FdSane(m, s.root.total)
    requires chunk == s.disk[e.cur][HEADER + e.off..HEADER + e.off + n]
    requires t + n <= |all| && chunk == Slice(all, t, n) && Returns(s, m, all, t + n, count - n)
    ensures Returns(s, e, all, t, count)
  {
    ReadTurn(s, e, count, n, m, chunk);
    QuotaTurn(s, e, count, n, m);
    SlicesJoin(all, t, n, Quota(s, m, count - n));
  }

  /** One turn of the loop, seen from the chain. */
  lemma RawTurn(s: State, cs: Chains, e: Fd, k: nat, count: nat, n: nat, m: Fd)
    requires Filed(s, cs) && FdSane(e, s.root.total) && e.FileFd? && InBlock(e, cs[e.file], k)
    requires AtBlock(s, e) && Quota(s, e, count) > 0 && n == ReadSpan(s, e, count) && m == ReadAdvance(s, e, n)
    ensures FdSane(m, s.root.total) && m.file == e.file && InBlock(m, cs[e.file], BlockAfter(e, k, n))
    ensures CursorOffset(m, BlockAfter(e, k, n)) == CursorOffset(e, k) + n
  {
    ReadTurn(s, e, count, n, m, s.disk[e.cur][HEADER + e.off..HEADER + e.off + n]);
    RawAdvanced(s, cs, e, k, n);
  }

  lemma ReturnsMore(s: State, cs: Chains, e: Fd, k: nat, count: nat, n: nat, m: Fd, all: seq<byte>, t: nat)
    requires Filed(s, cs) && FdSane(e, s.root.total) && e.FileFd? && InBlock(e, cs[e.file], k)
    requires all == Raw(s, cs, e.file) && t == CursorOffset(e, k)
    requires AtBlock(s, e) && Quota(s, e, count) > 0 && n == ReadSpan(s, e, count) && m == ReadAdvance(s, e, n)
    requires FdSane(m, s.root.total) && Fact(Returns(s, m, all, t + n, count - n))
    ensures Fact(Returns(s, e, all, t, count))
  {
    RawAdvanced(s, cs, e, k, n);
    RawSlice(s, cs, e, k, n);
    ReturnsTurn(s, e, all, t, count, m, n, s.disk[e.cur][HEADER + e.off..HEADER + e.off + n]);
  }

  lemma ReturnsAtEnd(s: State, cs: Chains, e: Fd, k: nat, count: nat)
    requires Filed(s, cs) && FdSane(e, s.root.total) && e.FileFd? && InBlock(e, cs[e.file], k)
    requires Quota(s, e, count) == 0 || !AtBlock(s, e)
    ensures Fact(Returns(s, e, Raw(s, cs, e.file), CursorOffset(e, k), count))
  {
    if Quota(s, e, count) > 0 { OffChain(s, cs, e, k); }
    ReturnsNothing(s, e, Raw(s, cs, e.file), CursorOffset(e, k), count);
  }

  /** A read takes its bytes from the cursor, and their number from the position. */
  lemma {:induction false} ReadsFromCursor(s: State, cs: Chains, e: Fd, k: nat, count: nat, all: seq<byte>, t: nat)
    requires Filed(s, cs) && FdSane(e, s.root.total) && e.FileFd? && InBlock(e, cs[e.file], k)
    requires all == Raw(s, cs, e.file) && t == CursorOffset(e, k)
    ensures Fact(Returns(s, e, all, t, count))
    decreases count
  {
    if Quota(s, e, count) == 0 || !AtBlock(s, e) {
      ReturnsAtEnd(s, cs, e, k, count);
    } else {
      var n := ReadSpan(s, e, count);
      var m := ReadAdvance(s, e, n);
      RawTurn(s, cs, e, k, count, n, m);
      ReadsFromCursor(s, cs, m, BlockAfter(e, k, n), count - n, all, t + n);
      ReturnsMore(s, cs, e, k, count, n, m, all, t);
    }
  }

  lemma SeekInBlock(s: State, cs: Chains, fd: int, pos: u16, whence: int, junk: u16, t: nat)
    requires Filed(s, cs) && IsFileFd(s, fd) && t == SeekTarget(s, s.fds[fd], pos, whence, junk)
    requires t <= PAYLOAD * |cs[s.fds[fd].file]|
    ensures var e := Seek(s, fd, pos, whence, junk).0.fds[fd];
            InBlock(e, cs[s.fds[fd].file], t / PAYLOAD) && CursorOffset(e, t / PAYLOAD) == t && e.pos == pos
  {
    var c := cs[s.fds[fd].file];
    assert SlotSound(s, s.fds[fd].file, c);
    SeekLands(s, s.fds[fd].file, c, 0, t);
    assert t == PAYLOAD * (t / PAYLOAD) + t % PAYLOAD;
  }

  /** Past the chain there is no block, and nothing to read. */
  lemma SeekBeyond(s: State, cs: Chains, fd: int, pos: u16, whence: int, junk: u16, count: u16)
    requires Filed(s, cs) && IsFileFd(s, fd) && s.fds[fd].Readable()
    requires SeekTarget(s, s.fds[fd], pos, whence, junk) > PAYLOAD * |cs[s.fds[fd].file]|
    ensures Read(Seek(s, fd, pos, whence, junk).0, fd, count).1 == ReadBytes([])
  {
    var i := s.fds[fd].file;
    assert SlotSound(s, i, cs[i]);
    SeekLands(s, i, cs[i], 0, SeekTarget(s, s.fds[fd], pos, whence, junk));
  }

  /**
   Main result: after a seek, of whatever kind, a read returns bytes from the offset the seek resolved to,
   but as many as lie between its raw argument and the end of the file. For SEEK_END with argument 0
   these are bytes after the file's end, up to the file's size of them.
   */
  lemma SeekThenRead(s: State, cs: Chains, fd: int, pos: u16, whence: int, junk: u16, count: u16)
    requires Filed(s, cs) && IsFileFd(s, fd) && s.fds[fd].Readable()
    ensures var i := s.fds[fd].file;
            var t := SeekTarget(s, s.fds[fd], pos, whence, junk);
            Read(Seek(s, fd, pos, whence, junk).0, fd, count).1 ==
            ReadBytes(Slice(Raw(s, cs, i), t, Min(count, Max(s.files[i].size - pos, 0))))
  {
    var t := SeekTarget(s, s.fds[fd], pos, whence, junk);
    if t <= PAYLOAD * |cs[s.fds[fd].file]| {
      var r := Seek(s, fd, pos, whence, junk).0;
      SeekInBlock(s, cs, fd, pos, whence, junk, t);
      FdsAside(s, cs, r.fds);
      ReadsFromCursor(r, cs, r.fds[fd], t / PAYLOAD, count, Raw(r, cs, r.fds[fd].file), t);
    } else {
      SeekBeyond(s, cs, fd, pos, whence, junk, count);
    }
  }

  // ---- where each kind of seek goes ------------------------------------------------------------------------

  /** What a read of `count` gets from offset `at` with the position noted as `pos`. */
  function Piece(s: State, cs: Chains, i: int, at: nat, pos: nat, count: nat): ReadResult
    requires Filed(s, cs) && 0 <= i < MAX_FILES
  {
    ReadBytes(Slice(Raw(s, cs, i), at, Min(count, Max(s.files[i].size - pos, 0))))
  }

  /** The sum of two offsets, kept in 16 bits. */
  function Sum16(a: u16, b: u16): u16 { if a + b < 0x1_0000 then a + b else a + b - 0x1_0000 }

  /** `whence` 1: from the start. */
  lemma SeekFromStart(s: State, cs: Chains, fd: int, a: u16, junk: u16, count: u16)
    requires Filed(s, cs) && IsFileFd(s, fd) && s.fds[fd].Readable()
    ensures Read(Seek(s, fd, a, 1, junk).0, fd, count).1 == Piece(s, cs, s.fds[fd].file, a, a, count)
  {
    SeekThenRead(s, cs, fd, a, 1, junk, count);
  }

  /** `whence` 2, after a seek to `a`: from there, though the position is noted as `d`. */
  lemma SeekFromHere(s: State, cs: Chains, fd: int, a: u16, d: u16, junk: u16, count: u16)
    requires Filed(s, cs) && IsFileFd(s, fd) && s.fds[fd].Readable()
    ensures var r := Seek(s, fd, a, 1, junk).0;
            Read(Seek(r, fd, d, 2, junk).0, fd, count).1 == Piece(s, cs, s.fds[fd].file, Sum16(a, d), d, count)
  {
    var r := Seek(s, fd, a, 1, junk).0;
    FdsAside(s, cs, r.fds);
    SeekOnward(r, cs, fd, d, junk, count);
    PieceAside(s, cs, r, s.fds[fd].file, Sum16(a, d), d, count);
  }

  lemma PieceAside(s: State, cs: Chains, r: State, i: int, at: nat, pos: nat, count: nat)
    requires Filed(s, cs) && Filed(r, cs) && r == s.(fds := r.fds) && 0 <= i < MAX_FILES
    ensures Piece(r, cs, i, at, pos, count) == Piece(s, cs, i, at, pos, count)
  {
  }

  /** From wherever the descriptor is. */
  lemma SeekOnward(s: State, cs: Chains, fd: int, d: u16, junk: u16, count: u16)
    requires Filed(s, cs) && IsFileFd(s, fd) && s.fds[fd].Readable()
    ensures Read(Seek(s, fd, d, 2, junk).0, fd, count).1
         == Piece(s, cs, s.fds[fd].file, Sum16(s.fds[fd].pos, d), d, count)
  {
    SeekThenRead(s, cs, fd, d, 2, junk, count);
    SumWraps(s.fds[fd].pos, d);
  }

  /** After a read of `n` bytes: from behind them. */
  lemma SeekAfterRead(s: State, cs: Chains, fd: int, n: u16, d: u16, junk: u16, count: u16)
    requires CanRead(s, cs, fd) && s.fds[fd].pos <= s.files[s.fds[fd].file].size
    ensures var i := s.fds[fd].file;
            var (r, x) := Read(s, fd, n);
            && x.ReadBytes? && s.fds[fd].pos + |x.bytes| < 0x1_0000
            && Read(Seek(r, fd, d, 2, junk).0, fd, count).1
               == Piece(s, cs, i, Sum16(s.fds[fd].pos + |x.bytes|, d), d, count)
  {
    OneRead(s, cs, fd, fd, n);
    var (r, x) := Read(s, fd, n);
    SeekOnward(r, cs, fd, d, junk, count);
    PieceAside(s, cs, r, s.fds[fd].file, Sum16(r.fds[fd].pos, d), d, count);
  }

  /** `whence` 3: from the end of the file. */
  lemma SeekFromEnd(s: State, cs: Chains, fd: int, d: u16, junk: u16, count: u16)
    requires Filed(s, cs) && IsFileFd(s, fd) && s.fds[fd].Readable()
    ensures var i := s.fds[fd].file;
            Read(Seek(s, fd, d, 3, junk).0, fd, count).1 == Piece(s, cs, i, Sum16(s.files[i].size, d), d, count)
  {
    SeekThenRead(s, cs, fd, d, 3, junk, count);
    SumWraps(s.files[s.fds[fd].file].size, d);
  }

  lemma SumWraps(a: u16, b: u16)
    ensures (a + b) % 0x1_0000 == Sum16(a, b)
  {
  }
}
