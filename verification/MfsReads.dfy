/** Reading, seeking, opening and loading, against the bytes a file holds. */
module MfsReads {
  import opened Machine
  import opened MfsFormat
  import opened MfsState
  import opened MfsChains
  import opened MfsContents

  /** At most `count` bytes of `s` from `pos` on. */
  function Slice(s: seq<byte>, pos: nat, count: nat): (r: seq<byte>)
    ensures |r| == Min(pos + count, |s|) - Min(pos, |s|)
  {
    s[Min(pos, |s|)..Min(pos + count, |s|)]
  }

  lemma SliceTwice(s: seq<byte>, pos: nat, a: nat, b: nat)
    ensures Slice(s, pos, a) + Slice(s, pos + |Slice(s, pos, a)|, b) == Slice(s, pos, a + b)
  {
    var x, y, z := Min(pos, |s|), Min(pos + a, |s|), Min(pos + a + b, |s|);
    assert s[x..y] + s[y..z] == s[x..z];
  }

  lemma Glue(all: seq<byte>, pos: nat, n: nat, got: seq<byte>, mid: nat, ask: nat, rest: seq<byte>)
    requires got == Slice(all, pos, n) && mid == pos + |got| && rest == Slice(all, mid, ask)
    ensures got + rest == Slice(all, pos, n + ask)
  {
    SliceTwice(all, pos, n, ask);
  }

  // ---- one read ------------------------------------------------------------------------------

  /** The cursor of a read after `n` more bytes of the same block. */
  lemma ReadAdvanced(s: State, cs: Chains, e: Fd, n: nat)
    requires Filed(s, cs) && e.FileFd? && 0 <= e.file < MAX_FILES && CursorAt(e, cs[e.file]) && AtBlock(s, e)
    requires e.off + n <= PAYLOAD && e.pos + n < 0x1_0000
    ensures CursorAt(ReadAdvance(s, e, n), cs[e.file])
  {
    var c, k := cs[e.file], e.pos / PAYLOAD;
    assert SlotSound(s, e.file, c);
    assert k < |c| && c[k] == e.cur && e.pos == PAYLOAD * k + e.off;
    assert Next(s.disk[c[k]]) == After(c, k);
    if e.off + n == PAYLOAD { assert (e.pos + n) / PAYLOAD == k + 1 && (e.pos + n) % PAYLOAD == 0; }
    else { assert (e.pos + n) / PAYLOAD == k && (e.pos + n) % PAYLOAD == e.off + n; }
  }

  lemma BlockSlice(s: State, cs: Chains, e: Fd, n: nat)
    requires Filed(s, cs) && e.FileFd? && 0 <= e.file < MAX_FILES && CursorAt(e, cs[e.file]) && AtBlock(s, e)
    requires e.off + n <= PAYLOAD && e.pos + n <= s.files[e.file].size
    ensures s.disk[e.cur][HEADER + e.off..HEADER + e.off + n] == Content(s, cs, e.file)[e.pos..e.pos + n]
  {
    var c, k := cs[e.file], e.pos / PAYLOAD;
    assert SlotSound(s, e.file, c);
    assert k < |c| && c[k] == e.cur && e.pos == PAYLOAD * k + e.off;
    var all := Content(s, cs, e.file);
    forall j | e.pos <= j < e.pos + n ensures all[j] == s.disk[e.cur][HEADER + e.off + (j - e.pos)] {
      assert j / PAYLOAD == k && j % PAYLOAD == e.off + (j - e.pos);
    }
  }

  /** Before the end of the file the cursor is on a block. */
  lemma InFile(s: State, cs: Chains, e: Fd)
    requires Filed(s, cs) && e.FileFd? && 0 <= e.file < MAX_FILES && CursorAt(e, cs[e.file])
    requires e.pos < s.files[e.file].size
    ensures AtBlock(s, e)
  {
    assert SlotSound(s, e.file, cs[e.file]);
  }

  /** What a read must return, and where it must leave the cursor. */
  ghost predicate ReadOk(s: State, cs: Chains, e: Fd, count: nat, e': Fd, bytes: seq<byte>)
    requires Filed(s, cs) && e.FileFd? && 0 <= e.file < MAX_FILES
  {
    && bytes == Slice(Content(s, cs, e.file), e.pos, count)
    && CursorAt(e', cs[e.file]) && e'.pos == e.pos + |bytes|
    && e' == e.(pos := e'.pos, cur := e'.cur, off := e'.off)
  }

  lemma ReadOkTwice(s: State, cs: Chains, e: Fd, n: nat, m: Fd, count: nat, e': Fd, a: seq<byte>, b: seq<byte>)
    requires Filed(s, cs) && e.FileFd? && 0 <= e.file < MAX_FILES && m.FileFd? && m.file == e.file
    requires ReadOk(s, cs, e, n, m, a) && ReadOk(s, cs, m, count, e', b)
    ensures ReadOk(s, cs, e, n + count, e', a + b)
  {
    SliceTwice(Content(s, cs, e.file), e.pos, n, count);
  }

  lemma ReadOkNothing(s: State, cs: Chains, e: Fd, count: nat)
    requires Filed(s, cs) && e.FileFd? && 0 <= e.file < MAX_FILES && CursorAt(e, cs[e.file])
    requires count == 0 || e.pos >= s.files[e.file].size
    ensures ReadOk(s, cs, e, count, e, [])
  {
  }

  lemma ReadOkBlock(s: State, cs: Chains, e: Fd, n: nat, m: Fd, chunk: seq<byte>)
    requires Filed(s, cs) && e.FileFd? && 0 <= e.file < MAX_FILES && CursorAt(e, cs[e.file]) && AtBlock(s, e)
    requires e.off + n <= PAYLOAD && e.pos + n <= s.files[e.file].size
    requires m == ReadAdvance(s, e, n) && chunk == s.disk[e.cur][HEADER + e.off..HEADER + e.off + n]
    ensures ReadOk(s, cs, e, n, m, chunk) && m.file == e.file
  {
    ReadAdvanced(s, cs, e, n);
    BlockSlice(s, cs, e, n);
  }

  /** One turn of the read loop takes a chunk of the current block and goes on behind it. */
  lemma ReadTurn(s: State, e: Fd, count: nat, n: nat, m: Fd, chunk: seq<byte>)
    requires Sane(s) && e.FileFd? && FdSane(e, s.root.total)
    requires count > 0 && AtBlock(s, e) && e.pos < s.files[e.file].size && n == ReadSpan(s, e, count)
    requires m == ReadAdvance(s, e, n) && chunk == s.disk[e.cur][HEADER + e.off..HEADER + e.off + n]
    ensures FdSane(m, s.root.total)
    ensures ReadLoop(s, e, count) == (ReadLoop(s, m, count - n).0, chunk + ReadLoop(s, m, count - n).1)
  {
  }

  lemma ReadOkLoop(s: State, cs: Chains, e: Fd, count: nat, n: nat, m: Fd, chunk: seq<byte>, r: (Fd, seq<byte>))
    requires Filed(s, cs) && e.FileFd? && 0 <= e.file < MAX_FILES && m.FileFd? && m.file == e.file && n <= count
    requires ReadOk(s, cs, e, n, m, chunk) && ReadOk(s, cs, m, count - n, r.0, r.1)
    ensures ReadOk(s, cs, e, count, r.0, chunk + r.1)
  {
    ReadOkTwice(s, cs, e, n, m, count - n, r.0, chunk, r.1);
  }

  /**
   A read returns exactly the next bytes of the file, up to the count or the end, and leaves the
   cursor just after them. Nothing is returned at or past the end.
   */
  lemma {:induction false} ReadReturns(s: State, cs: Chains, e: Fd, count: nat)
    requires Filed(s, cs) && FdSane(e, s.root.total) && e.FileFd? && CursorAt(e, cs[e.file])
    ensures ReadOk(s, cs, e, count, ReadLoop(s, e, count).0, ReadLoop(s, e, count).1)
    decreases count
  {
    if count == 0 || e.pos >= s.files[e.file].size {
      ReadOkNothing(s, cs, e, count);
    } else {
      InFile(s, cs, e);
      var n := ReadSpan(s, e, count);
      var m, chunk := ReadAdvance(s, e, n), s.disk[e.cur][HEADER + e.off..HEADER + e.off + n];
      ReadOkBlock(s, cs, e, n, m, chunk);
      ReadTurn(s, e, count, n, m, chunk);
      ReadReturns(s, cs, m, count - n);
      ReadOkLoop(s, cs, e, count, n, m, chunk, ReadLoop(s, m, count - n));
    }
  }

  // ---- many reads, interleaved --------------------------------------------------------------------

  datatype Request = Request(fd: int, count: u16)

  function ReadAll(s: State, reqs: seq<Request>): (r: (State, seq<ReadResult>))
    requires Sane(s)
    ensures Sane(r.0) && |r.1| == |reqs|
    decreases |reqs|
  {
    if reqs == [] then (s, [])
    else
      var (s1, x) := Read(s, reqs[0].fd, reqs[0].count);
      var (s2, xs) := ReadAll(s1, reqs[1..]);
      (s2, [x] + xs)
  }

  /** What `d` gets from a read with this result. */
  function Share(fd: int, d: int, x: ReadResult): seq<byte> { if fd == d && x.ReadBytes? then x.bytes else [] }

  /** What descriptor `d` was handed over a series of reads, and what it asked for in all. */
  function Delivered(reqs: seq<Request>, results: seq<ReadResult>, d: int): seq<byte>
    requires |results| == |reqs|
  {
    if reqs == [] then []
    else
      Share(reqs[0].fd, d, results[0]) + Delivered(reqs[1..], results[1..], d)
  }

  function Asked(reqs: seq<Request>, d: int): nat {
    if reqs == [] then 0 else (if reqs[0].fd == d then reqs[0].count else 0) + Asked(reqs[1..], d)
  }

  ghost predicate CanRead(s: State, cs: Chains, d: int) {
    Filed(s, cs) && IsFileFd(s, d) && s.fds[d].Readable() && CursorAt(s.fds[d], cs[s.fds[d].file])
  }

  /** One read, on `d` or not, hands `d` the next slice of its file or leaves it alone. */
  ghost predicate Handed(s: State, cs: Chains, d: int, fd: int, count: u16, r: State, x: ReadResult)
    requires CanRead(s, cs, d)
  {
    var i := s.fds[d].file;
    && CanRead(r, cs, d) && r.fds[d].file == i && Content(r, cs, i) == Content(s, cs, i)
    && (if fd == d
        then x == ReadBytes(Slice(Content(s, cs, i), s.fds[d].pos, count))
             && r.fds[d].pos == s.fds[d].pos + |x.bytes|
        else r.fds[d] == s.fds[d])
  }

  lemma OneRead(s: State, cs: Chains, d: int, fd: int, count: u16)
    requires CanRead(s, cs, d)
    ensures var (r, x) := Read(s, fd, count); Handed(s, cs, d, fd, count, r, x)
  {
    ReadReturns(s, cs, s.fds[d], count);
    var r := Read(s, fd, count).0;
    forall i | 0 <= i < MAX_FILES ensures SlotSound(r, i, cs[i]) { assert SlotSound(s, i, cs[i]); }
  }

  lemma DeliveredSplit(s: State, reqs: seq<Request>, d: int)
    requires Sane(s) && reqs != []
    ensures var q := reqs[0];
            var (s1, x) := Read(s, q.fd, q.count);
            && Delivered(reqs, ReadAll(s, reqs).1, d)
               == Share(q.fd, d, x) + Delivered(reqs[1..], ReadAll(s1, reqs[1..]).1, d)
            && Asked(reqs, d) == (if q.fd == d then q.count else 0) + Asked(reqs[1..], d)
  {
    var (s1, x) := Read(s, reqs[0].fd, reqs[0].count);
    var xs := ReadAll(s1, reqs[1..]).1;
    assert ReadAll(s, reqs).1 == [x] + xs && ([x] + xs)[1..] == xs;
  }

  /** The share of one read, and the slice handed on after it, are one slice. */
  lemma HandedOn(s: State, cs: Chains, d: int, fd: int, count: u16, r: State, x: ReadResult, ask: nat, rest: seq<byte>)
    requires CanRead(s, cs, d) && Handed(s, cs, d, fd, count, r, x)
    requires rest == Slice(Content(r, cs, r.fds[d].file), r.fds[d].pos, ask)
    ensures Share(fd, d, x) + rest
         == Slice(Content(s, cs, s.fds[d].file), s.fds[d].pos, (if fd == d then count else 0) + ask)
  {
    var all, pos := Content(s, cs, s.fds[d].file), s.fds[d].pos;
    if fd == d { Glue(all, pos, count, x.bytes, r.fds[d].pos, ask, rest); }
    else { Glue(all, pos, 0, [], pos, ask, rest); }
  }

  /**
   However the reads are split and whatever reads on other descriptors come between them, a
   descriptor is handed consecutive slices of its file, and nothing after the end.
   */
  lemma {:induction false} ReadsAreConsecutive(s: State, cs: Chains, d: int, reqs: seq<Request>)
    requires CanRead(s, cs, d)
    ensures Delivered(reqs, ReadAll(s, reqs).1, d)
         == Slice(Content(s, cs, s.fds[d].file), s.fds[d].pos, Asked(reqs, d))
    decreases |reqs|
  {
    if reqs == [] {
      assert Slice(Content(s, cs, s.fds[d].file), s.fds[d].pos, 0) == [];
    } else {
      var q := reqs[0];
      var (s1, x) := Read(s, q.fd, q.count);
      OneRead(s, cs, d, q.fd, q.count);
      ReadsAreConsecutive(s1, cs, d, reqs[1..]);
      DeliveredSplit(s, reqs, d);
      HandedOn(s, cs, d, q.fd, q.count, s1, x, Asked(reqs[1..], d),
               Delivered(reqs[1..], ReadAll(s1, reqs[1..]).1, d));
    }
  }

  // ---- where open and seek leave the cursor ------------------------------------------------------------

  /** A new descriptor's cursor agrees with its position exactly when that position is 0. */
  lemma OpenCursor(s: State, cs: Chains, slot: int, flags: u16, junk: u16)
    requires Filed(s, cs) && 0 <= slot < MAX_FILES
    ensures var e := NewFd(s.files[slot], slot, flags, junk);
            && (CursorAt(e, cs[slot]) <==> e.pos == 0)
            && (e.pos == 0 ==> WriteReady(e, cs[slot]))
  {
    assert SlotSound(s, slot, cs[slot]);
  }

  /** So append mode works on empty files alone. */
  lemma AppendCursor(s: State, cs: Chains, slot: int, flags: u16, junk: u16)
    requires Filed(s, cs) && 0 <= slot < MAX_FILES && flags % 4 in {1, 2} && flags / 8 % 2 == 1
    ensures CursorAt(NewFd(s.files[slot], slot, flags, junk), cs[slot]) <==> s.files[slot].size == 0
  {
    FlagBits(flags);
    OpenCursor(s, cs, slot, flags, junk);
  }

  /**
   What the bits of the flags come to: without 0x200 a missing file is not opened; the two low bits are
   reading, writing, both or neither; 0x08 starts a writer at the end.
   */
  lemma OpenFlags(s: State, name: CString, flags: u16, junk: u16)
    requires Sane(s)
    ensures FindFile(s, name) == -1 && flags / 0x200 % 2 == 0 ==> Open(s, name, flags, junk) == (s, -1)
    ensures FindFile(s, name) != -1 ==> Open(s, name, flags, junk).0 == s.(fds := Open(s, name, flags, junk).0.fds)
    ensures var (o, fd) := Open(s, name, flags, junk);
            fd != -1 ==>
              && IsFileFd(o, fd) && s.fds[fd] == NoFd
              && (o.fds[fd].Readable() <==> flags % 4 == 0 || flags % 4 == 2)
              && (o.fds[fd].Writable() <==> flags % 4 == 1 || flags % 4 == 2)
              && var size := o.files[o.fds[fd].file].size;
                 flags % 4 != 3 ==> o.fds[fd].pos == if flags % 4 != 0 && flags / 8 % 2 == 1 then size else 0
  {
    FlagBits(flags);
    FirstFdFree(Open(s, name, flags, junk).0.fds, 3);
    FirstFdFree(s.fds, 3);
  }

  lemma {:induction false} FirstFdFree(fds: seq<Fd>, i: nat)
    ensures var d := FirstFd(fds, i); d != -1 ==> i <= d < |fds| && fds[d] == NoFd
    decreases |fds| - i
  {
    if i < |fds| && fds[i] != NoFd { FirstFdFree(fds, i + 1); }
  }

  lemma {:induction false} SeekLands(s: State, i: int, c: seq<u16>, m: nat, off: u16)
    requires Sane(s) && 0 <= i < MAX_FILES && SlotSound(s, i, c) && m <= |c|
    ensures var (b, o) := SeekWalk(s, if m < |c| then c[m] else 0, off);
            if off <= PAYLOAD * (|c| - m)
            then o == off % PAYLOAD && b == if m + off / PAYLOAD < |c| then c[m + off / PAYLOAD] else 0
            else b == 0 && o == off - PAYLOAD * (|c| - m)
    decreases off
  {
    if off >= PAYLOAD && m < |c| {
      assert Next(s.disk[c[m]]) == After(c, m);
      SeekLands(s, i, c, m + 1, off - PAYLOAD);
      assert (off - PAYLOAD) / PAYLOAD == off / PAYLOAD - 1 && (off - PAYLOAD) % PAYLOAD == off % PAYLOAD;
    }
  }

  lemma SeekAgrees(s: State, cs: Chains, fd: int, pos: u16, whence: int, junk: u16)
    requires Filed(s, cs) && IsFileFd(s, fd)
    ensures var e, e' := s.fds[fd], Seek(s, fd, pos, whence, junk).0.fds[fd];
            var c := cs[e.file];
            CursorAt(e', c) <==> SeekTarget(s, e, pos, whence, junk) == pos && pos <= PAYLOAD * |c|
  {
    var e := s.fds[fd];
    var c := cs[e.file];
    assert SlotSound(s, e.file, c);
    var t := SeekTarget(s, e, pos, whence, junk);
    SeekLands(s, e.file, c, 0, t);
    if t <= PAYLOAD * |c| && pos <= PAYLOAD * |c| && t != pos { SeekMismatch(c, t, pos); }
  }

  lemma TargetStays(s: State, e: Fd, pos: u16, whence: int, junk: u16)
    requires Sane(s) && e.FileFd? && 0 <= e.file < MAX_FILES && whence in {SEEK_SET, SEEK_CUR, SEEK_END}
    ensures SeekTarget(s, e, pos, whence, junk) == pos <==>
              (whence == SEEK_CUR ==> e.pos == 0) && (whence == SEEK_END ==> s.files[e.file].size == 0)
  {
  }

  /**
   A seek stores the raw argument but walks to the resolved offset, so cursor and position agree
   exactly when the two are equal and inside the chain: always for SEEK_SET, from position 0 for
   SEEK_CUR, on an empty file for SEEK_END.
   */
  lemma SeekCursor(s: State, cs: Chains, fd: int, pos: u16, whence: int, junk: u16)
    requires Filed(s, cs) && IsFileFd(s, fd) && whence in {SEEK_SET, SEEK_CUR, SEEK_END}
    ensures var e := s.fds[fd];
            CursorAt(Seek(s, fd, pos, whence, junk).0.fds[fd], cs[e.file]) <==>
              && pos <= PAYLOAD * |cs[e.file]|
              && (whence == SEEK_CUR ==> e.pos == 0)
              && (whence == SEEK_END ==> s.files[e.file].size == 0)
  {
    SeekAgrees(s, cs, fd, pos, whence, junk);
    TargetStays(s, s.fds[fd], pos, whence, junk);
  }

  /** Different offsets of one chain never share block and offset. */
  lemma SeekMismatch(c: seq<u16>, t: u16, pos: u16)
    requires NoDup(c) && (forall j :: 0 <= j < |c| ==> c[j] != 0)
    requires t <= PAYLOAD * |c| && pos <= PAYLOAD * |c| && t != pos
    ensures t % PAYLOAD != pos % PAYLOAD
         || (if t / PAYLOAD < |c| then c[t / PAYLOAD] else 0) != (if pos / PAYLOAD < |c| then c[pos / PAYLOAD] else 0)
  {
  }

  // ---- load_executable ------------------------------------------------------------------------------------

  datatype LoadResult = NotFound | Overrun | Loaded(bytes: seq<byte>)

  /** The load loop, over sectors below `limit`; a negative remainder would copy far past the sector buffer. */
  function LoadLoop(s: State, limit: u16, sector: u16, remaining: int): LoadResult
    requires Sane(s) && limit <= |s.disk|
    decreases remaining
  {
    if remaining == 0 || sector == 0 || sector >= limit then Loaded([])
    else if remaining < 0 then Overrun
    else
      var n := Min(remaining, PAYLOAD);
      match LoadLoop(s, limit, Next(s.disk[sector]), remaining - n)
      case Loaded(rest) => Loaded(s.disk[sector][HEADER..HEADER + n] + rest)
      case other => other
  }

  /** The size is kept in a signed 16-bit counter. */
  function LoadExecutable(s: State, name: CString): LoadResult
    requires Sane(s)
  {
    var i := FindFile(s, name);
    if i == -1 then NotFound else LoadLoop(s, s.root.total, s.files[i].block, Int16(s.files[i].size))
  }

  lemma ChunkOfContent(s: State, cs: Chains, i: int, m: nat, n: nat)
    requires Filed(s, cs) && 0 <= i < MAX_FILES && m < |cs[i]| && n <= PAYLOAD
    requires PAYLOAD * m + n <= s.files[i].size
    ensures cs[i][m] < |s.disk|
    ensures s.disk[cs[i][m]][HEADER..HEADER + n] == Content(s, cs, i)[PAYLOAD * m..PAYLOAD * m + n]
  {
    var all := Content(s, cs, i);
    assert SlotSound(s, i, cs[i]);
    forall j | PAYLOAD * m <= j < PAYLOAD * m + n ensures all[j] == s.disk[cs[i][m]][HEADER + (j - PAYLOAD * m)] {
      assert j / PAYLOAD == m && j % PAYLOAD == j - PAYLOAD * m;
    }
  }

  lemma {:induction false} LoadFrom(s: State, cs: Chains, i: int, m: nat, limit: u16)
    requires Filed(s, cs) && 0 <= i < MAX_FILES && PAYLOAD * m <= s.files[i].size
    requires s.root.total <= limit <= |s.disk|
    ensures m <= |cs[i]|
    ensures LoadLoop(s, limit, if m < |cs[i]| then cs[i][m] else 0, s.files[i].size - PAYLOAD * m)
         == Loaded(Content(s, cs, i)[PAYLOAD * m..])
    decreases s.files[i].size - PAYLOAD * m
  {
    var c, size := cs[i], s.files[i].size;
    var all := Content(s, cs, i);
    assert SlotSound(s, i, c);
    if size > PAYLOAD * m {
      assert Next(s.disk[c[m]]) == After(c, m);
      var n := Min(size - PAYLOAD * m, PAYLOAD);
      ChunkOfContent(s, cs, i, m, n);
      if n == PAYLOAD {
        LoadFrom(s, cs, i, m + 1, limit);
        assert all[PAYLOAD * m..PAYLOAD * m + n] + all[PAYLOAD * (m + 1)..] == all[PAYLOAD * m..];
      } else {
        assert all[PAYLOAD * m..PAYLOAD * m + n] + [] == all[PAYLOAD * m..];
      }
    }
  }

  /** The loader returns the file byte for byte exactly when its size is below 32768. */
  lemma LoadReturns(s: State, cs: Chains, name: CString)
    requires Filed(s, cs) && FindFile(s, name) != -1
    ensures var i := FindFile(s, name);
            LoadExecutable(s, name) == if s.files[i].size < 0x8000 then Loaded(Content(s, cs, i)) else Overrun
  {
    var i := FindFile(s, name);
    assert SlotSound(s, i, cs[i]);
    LoadFrom(s, cs, i, 0, s.root.total);
  }
}
