/**
 What a file holds: the bytes along its chain, and that a write through a ready descriptor overlays them.
 */
module MfsContents {
  import opened Machine
  import opened MfsFormat
  import opened MfsState
  import opened MfsChains

  // ---- the bytes of a chain -----------------------------------------------------------------

  predicate InDisk(disk: seq<Sector>, c: seq<u16>) {
    forall j :: 0 <= j < |c| ==> c[j] < |disk|
  }

  /** The first `n` payload bytes along chain `c`. */
  function Bytes(disk: seq<Sector>, c: seq<u16>, n: nat): (r: seq<byte>)
    requires InDisk(disk, c) && n <= PAYLOAD * |c|
    ensures |r| == n
  {
    seq(n, j requires 0 <= j < n => disk[c[j / PAYLOAD]][HEADER + j % PAYLOAD])
  }

  /** Sound chains that are long enough for the recorded sizes. */
  predicate Filed(s: State, cs: Chains) {
    && SoundWith(s, cs)
    && forall i :: 0 <= i < MAX_FILES ==> s.files[i].size <= PAYLOAD * |cs[i]|
  }

  function Content(s: State, cs: Chains, i: int): seq<byte>
    requires Filed(s, cs) && 0 <= i < MAX_FILES
  {
    assert SlotSound(s, i, cs[i]);
    Bytes(s.disk, cs[i], s.files[i].size)
  }

  /** `data` written over `was` at `pos`, extending it if need be. */
  function Overlay(was: seq<byte>, pos: nat, data: seq<byte>): (r: seq<byte>)
    requires pos <= |was|
    ensures |r| == Max(|was|, pos + |data|)
  {
    was[..pos] + data + (if pos + |data| < |was| then was[pos + |data|..] else [])
  }

  lemma OverlayTwice(was: seq<byte>, pos: nat, a: seq<byte>, b: seq<byte>)
    requires pos <= |was|
    ensures Overlay(Overlay(was, pos, a), pos + |a|, b) == Overlay(was, pos, a + b)
  {
  }

  /** The descriptor's block and offset agree with its position in chain `c`. */
  predicate CursorAt(e: Fd, c: seq<u16>) {
    && e.FileFd?
    && e.pos <= PAYLOAD * |c|
    && e.off == e.pos % PAYLOAD
    && e.cur == if e.pos / PAYLOAD < |c| then c[e.pos / PAYLOAD] else 0
  }

  function Last(c: seq<u16>): u16 { if c == [] then 0 else c[|c| - 1] }

  /** At the end of the chain the descriptor must also remember the block to extend. */
  predicate WriteReady(e: Fd, c: seq<u16>) {
    CursorAt(e, c) && (e.cur == 0 ==> e.prev == Last(c))
  }

  // ---- one round of a write -------------------------------------------------------------------

  lemma PatchedBytes(disk: seq<Sector>, c: seq<u16>, k: nat, off: nat, chunk: seq<byte>, n: nat)
    requires InDisk(disk, c) && NoDup(c) && k < |c| && n <= PAYLOAD * |c|
    requires off + |chunk| <= PAYLOAD
    requires PAYLOAD * k + off <= n
    ensures var d := disk[c[k] := Patch(disk[c[k]], off, chunk)];
            var m := Max(n, PAYLOAD * k + off + |chunk|);
            m <= PAYLOAD * |c| && Bytes(d, c, m) == Overlay(Bytes(disk, c, n), PAYLOAD * k + off, chunk)
  {
    var d := disk[c[k] := Patch(disk[c[k]], off, chunk)];
    var pos := PAYLOAD * k + off;
    var m := Max(n, pos + |chunk|);
    var o := Overlay(Bytes(disk, c, n), pos, chunk);
    forall j | 0 <= j < m ensures Bytes(d, c, m)[j] == o[j] {
      var q := j / PAYLOAD;
      assert j == PAYLOAD * q + j % PAYLOAD;
      if q != k { assert c[q] != c[k]; }
    }
  }

  lemma OtherBytes(disk: seq<Sector>, c: seq<u16>, n: nat, b: u16, sector: Sector)
    requires InDisk(disk, c) && n <= PAYLOAD * |c| && b !in c && b < |disk|
    ensures Bytes(disk[b := sector], c, n) == Bytes(disk, c, n)
  {
  }

  // ---- free space -------------------------------------------------------------------------------

  function FreeIn(bm: Sector, lo: u16, hi: u16): nat
    requires hi <= 8 * SECTOR
    decreases hi - lo
  {
    if lo >= hi then 0 else FreeIn(bm, lo + 1, hi) + if Marked(bm, lo) then 0 else 1
  }

  function FreeBlocks(s: State): nat
    requires Sane(s)
  {
    FreeIn(s.bitmap, s.root.dataStart, s.root.total)
  }

  lemma {:induction false} MarkTakesOne(bm: Sector, lo: u16, hi: u16, b: u16)
    requires hi <= 8 * SECTOR && b < 8 * SECTOR && !Marked(bm, b)
    ensures FreeIn(Mark(bm, b), lo, hi) == FreeIn(bm, lo, hi) - if lo <= b < hi then 1 else 0
    decreases hi - lo
  {
    if lo < hi {
      MarkMarks(bm, b, lo);
      MarkTakesOne(bm, lo + 1, hi, b);
    }
  }

  lemma {:induction false} UnmarkGivesOne(bm: Sector, lo: u16, hi: u16, b: u16)
    requires hi <= 8 * SECTOR && b < 8 * SECTOR && Marked(bm, b)
    ensures FreeIn(Unmark(bm, b), lo, hi) == FreeIn(bm, lo, hi) + if lo <= b < hi then 1 else 0
    decreases hi - lo
  {
    if lo < hi {
      UnmarkClears(bm, b, lo);
      UnmarkGivesOne(bm, lo + 1, hi, b);
    }
  }

  /** The scan fails exactly when nothing is free. */
  lemma {:induction false} ScanFindsFree(bm: Sector, lo: u16, hi: u16)
    requires 0 < lo && hi <= 8 * SECTOR
    ensures FirstFree(bm, lo, hi) == 0 <==> FreeIn(bm, lo, hi) == 0
    decreases hi - lo
  {
    if lo < hi && Marked(bm, lo) { ScanFindsFree(bm, lo + 1, hi); }
  }

  // ---- writing ----------------------------------------------------------------------------------

  /**
   `r` is `s` after `done` was written through `fd`: that file's bytes are overlaid, every other
   file's are untouched, no other descriptor moved, and the descriptor is ready to write on.
   */
  ghost predicate Wrote(s: State, cs: Chains, r: State, cs': Chains, fd: int, done: seq<byte>) {
    && Filed(s, cs) && Filed(r, cs') && r.root == s.root
    && IsFileFd(s, fd) && IsFileFd(r, fd)
    && var e, e' := s.fds[fd], r.fds[fd];
    && var i := e.file;
    && e'.file == i && e'.mode == e.mode && r.files[i].name == s.files[i].name
    && e.pos <= s.files[i].size && e'.pos == e.pos + |done| <= r.files[i].size
    && WriteReady(e, cs[i]) && WriteReady(e', cs'[i])
    && Content(r, cs', i) == Overlay(Content(s, cs, i), e.pos, done)
    && (forall j :: 0 <= j < MAX_FILES && j != i ==>
          cs'[j] == cs[j] && r.files[j] == s.files[j] && Content(r, cs', j) == Content(s, cs, j))
    && (forall d :: 0 <= d < FD_MAX && d != fd ==> r.fds[d] == s.fds[d])
    && cs[i] <= cs'[i]
    && FreeBlocks(r) + |cs'[i]| == FreeBlocks(s) + |cs[i]|
  }

  lemma WroteTwice(s: State, cs: Chains, m: State, cm: Chains, r: State, cr: Chains, fd: int,
                   a: seq<byte>, b: seq<byte>, ab: seq<byte>)
    requires Wrote(s, cs, m, cm, fd, a) && Wrote(m, cm, r, cr, fd, b) && ab == a + b
    ensures Wrote(s, cs, r, cr, fd, ab)
  {
    var e := s.fds[fd];
    OverlayTwice(Content(s, cs, e.file), e.pos, a, b);
  }

  lemma SameLinksSound(s: State, r: State, cs: Chains)
    requires SoundWith(s, cs) && Sane(r) && r.root == s.root && r.bitmap == s.bitmap && |r.disk| == |s.disk|
    requires forall b :: 0 <= b < |s.disk| ==> Next(r.disk[b]) == Next(s.disk[b])
    requires forall i :: 0 <= i < MAX_FILES ==> r.files[i].block == s.files[i].block
    ensures SoundWith(r, cs)
  {
    forall i | 0 <= i < MAX_FILES ensures SlotSound(r, i, cs[i]) {
      assert SlotSound(s, i, cs[i]);
    }
  }

  ghost predicate ChunkFits(s: State, cs: Chains, fd: int, chunk: seq<byte>) {
    && Filed(s, cs) && IsFileFd(s, fd) && AtBlock(s, s.fds[fd])
    && var e := s.fds[fd];
    && CursorAt(e, cs[e.file]) && e.pos <= s.files[e.file].size
    && e.off + |chunk| <= PAYLOAD && e.pos + |chunk| < 0x1_0000
  }

  lemma CursorBlock(s: State, cs: Chains, fd: int)
    requires ChunkFits(s, cs, fd, [])
    ensures var e := s.fds[fd];
            var c, k := cs[e.file], e.pos / PAYLOAD;
            && k < |c| && c[k] == e.cur && e.pos == PAYLOAD * k + e.off && InDisk(s.disk, c) && NoDup(c)
            && Next(s.disk[e.cur]) == After(c, k)
            && forall j :: 0 <= j < MAX_FILES && j != e.file ==> e.cur !in cs[j]
  {
    var e := s.fds[fd];
    var c, k := cs[e.file], e.pos / PAYLOAD;
    assert SlotSound(s, e.file, c);
    assert Next(s.disk[c[k]]) == After(c, k);
    forall j | 0 <= j < MAX_FILES && j != e.file ensures e.cur !in cs[j] {
      assert Disjoint(cs[Min(e.file, j)], cs[Max(e.file, j)]);
    }
  }

  lemma AdvanceReady(e: Fd, c: seq<u16>, n: nat)
    requires CursorAt(e, c) && e.pos / PAYLOAD < |c| && e.off + n <= PAYLOAD && e.pos + n < 0x1_0000
    requires forall j :: 0 <= j < |c| ==> c[j] != 0
    ensures WriteReady(WriteAdvance(e, n, After(c, e.pos / PAYLOAD)), c)
    ensures e.pos + n <= PAYLOAD * |c|
  {
    var k := e.pos / PAYLOAD;
    assert e.pos == PAYLOAD * k + e.off;
    if e.off + n == PAYLOAD { assert (e.pos + n) / PAYLOAD == k + 1 && (e.pos + n) % PAYLOAD == 0; }
    else { assert (e.pos + n) / PAYLOAD == k && (e.pos + n) % PAYLOAD == e.off + n; }
  }

  lemma PutChunkFiled(s: State, cs: Chains, fd: int, chunk: seq<byte>)
    requires ChunkFits(s, cs, fd, chunk)
    ensures Filed(PutChunk(s, fd, chunk), cs)
    ensures WriteReady(PutChunk(s, fd, chunk).fds[fd], cs[s.fds[fd].file])
  {
    var e := s.fds[fd];
    CursorBlock(s, cs, fd);
    assert SlotSound(s, e.file, cs[e.file]);
    AdvanceReady(e, cs[e.file], |chunk|);
    SameLinksSound(s, PutChunk(s, fd, chunk), cs);
  }

  lemma PutChunkOthers(s: State, cs: Chains, fd: int, chunk: seq<byte>, j: int)
    requires ChunkFits(s, cs, fd, chunk) && 0 <= j < MAX_FILES && j != s.fds[fd].file
    requires Filed(PutChunk(s, fd, chunk), cs)
    ensures Content(PutChunk(s, fd, chunk), cs, j) == Content(s, cs, j)
  {
    var e := s.fds[fd];
    CursorBlock(s, cs, fd);
    assert SlotSound(s, j, cs[j]);
    OtherBytes(s.disk, cs[j], s.files[j].size, e.cur, Patch(s.disk[e.cur], e.off, chunk));
  }

  lemma PutChunkWrites(s: State, cs: Chains, fd: int, chunk: seq<byte>)
    requires ChunkFits(s, cs, fd, chunk) && WriteReady(s.fds[fd], cs[s.fds[fd].file])
    ensures Wrote(s, cs, PutChunk(s, fd, chunk), cs, fd, chunk)
  {
    var e := s.fds[fd];
    PutChunkFiled(s, cs, fd, chunk);
    forall j | 0 <= j < MAX_FILES && j != e.file
      ensures Content(PutChunk(s, fd, chunk), cs, j) == Content(s, cs, j)
    {
      PutChunkOthers(s, cs, fd, chunk, j);
    }
    CursorBlock(s, cs, fd);
    PatchedBytes(s.disk, cs[e.file], e.pos / PAYLOAD, e.off, chunk, s.files[e.file].size);
  }

  // ---- extending a chain ----------------------------------------------------------------------------

  lemma FreshBlock(s: State, cs: Chains, b: u16)
    requires SoundWith(s, cs) && b < 8 * SECTOR && !Marked(s.bitmap, b)
    ensures forall j :: 0 <= j < MAX_FILES ==> b !in cs[j]
  {
    forall j | 0 <= j < MAX_FILES ensures b !in cs[j] { assert SlotSound(s, j, cs[j]); }
  }

  /** A blank block after the last one lengthens the chain by one. */
  lemma ExtendedChain(disk: seq<Sector>, head: u16, c: seq<u16>, b: u16)
    requires IsChain(disk, head, c) && NoDup(c) && 0 < b < |disk| && b !in c
    ensures var d := disk[b := BlankBlock()];
            if c == [] then IsChain(d, b, [b])
            else IsChain(d[Last(c) := SetNext(d[Last(c)], b)], head, c + [b])
  {
    var d := disk[b := BlankBlock()];
    if c != [] {
      var d' := d[Last(c) := SetNext(d[Last(c)], b)];
      forall j | 0 <= j < |c| + 1 ensures Next(d'[(c + [b])[j]]) == After(c + [b], j) {
        if j < |c| { assert Next(disk[c[j]]) == After(c, j); }
      }
    }
  }

  /** Changing sectors outside a chain leaves the chain and its bytes alone. */
  lemma ChainElsewhere(disk: seq<Sector>, d: seq<Sector>, head: u16, c: seq<u16>, n: nat)
    requires IsChain(disk, head, c) && |d| == |disk| && n <= PAYLOAD * |c|
    requires forall j :: 0 <= j < |c| ==> d[c[j]] == disk[c[j]]
    ensures IsChain(d, head, c) && Bytes(d, c, n) == Bytes(disk, c, n)
  {
  }

  /** At the end of its chain, with the last block remembered, and a free block found. */
  ghost predicate CanLink(s: State, cs: Chains, fd: int, b: u16) {
    && Filed(s, cs) && IsFileFd(s, fd) && IsData(s.root, b) && !Marked(s.bitmap, b)
    && var e := s.fds[fd];
    && e.cur == 0 && WriteReady(e, cs[e.file]) && e.pos <= s.files[e.file].size
  }

  function Linked1(s: State, fd: int, b: u16): State
    requires Sane(s) && IsFileFd(s, fd) && IsData(s.root, b)
  {
    LinkBlock(s.(bitmap := Mark(s.bitmap, b)), fd, b)
  }

  lemma LinkOwn(s: State, cs: Chains, fd: int, b: u16)
    requires CanLink(s, cs, fd, b)
    ensures var i := s.fds[fd].file;
            var r, c := Linked1(s, fd, b), cs[i] + [b];
            && IsChain(r.disk, r.files[i].block, c)
            && Bytes(r.disk, c, s.files[i].size) == Bytes(s.disk, cs[i], s.files[i].size)
  {
    var i := s.fds[fd].file;
    FreshBlock(s, cs, b);
    assert SlotSound(s, i, cs[i]);
    ExtendedChain(s.disk, s.files[i].block, cs[i], b);
    var r := Linked1(s, fd, b);
    assert forall x: u16 :: x < |s.disk| && x != b ==> r.disk[x][HEADER..] == s.disk[x][HEADER..];
    var n := s.files[i].size;
    forall j | 0 <= j < n
      ensures Bytes(r.disk, cs[i] + [b], n)[j] == Bytes(s.disk, cs[i], n)[j]
    {
      var x := cs[i][j / PAYLOAD];
      assert x == (cs[i] + [b])[j / PAYLOAD] && x != b;
      assert r.disk[x][HEADER..][j % PAYLOAD] == s.disk[x][HEADER..][j % PAYLOAD];
    }
  }

  /** Linking writes the new block and the one before it. */
  lemma LinkSectors(s: State, fd: int, b: u16, c: seq<u16>)
    requires Sane(s) && IsFileFd(s, fd) && IsData(s.root, b) && InDisk(s.disk, c)
    requires b !in c && (s.fds[fd].prev == 0 || s.fds[fd].prev !in c)
    ensures var r := Linked1(s, fd, b);
            |r.disk| == |s.disk| && forall k :: 0 <= k < |c| ==> r.disk[c[k]] == s.disk[c[k]]
  {
  }

  lemma LinkOther(s: State, cs: Chains, fd: int, b: u16, j: int)
    requires CanLink(s, cs, fd, b) && 0 <= j < MAX_FILES && j != s.fds[fd].file
    ensures var r := Linked1(s, fd, b);
            && IsChain(r.disk, r.files[j].block, cs[j])
            && Bytes(r.disk, cs[j], s.files[j].size) == Bytes(s.disk, cs[j], s.files[j].size)
  {
    var r, e := Linked1(s, fd, b), s.fds[fd];
    FreshBlock(s, cs, b);
    assert Disjoint(cs[Min(e.file, j)], cs[Max(e.file, j)]);
    assert SlotSound(s, j, cs[j]);
    LinkSectors(s, fd, b, cs[j]);
    ChainElsewhere(s.disk, r.disk, s.files[j].block, cs[j], s.files[j].size);
  }

  lemma MarkMore(bm: Sector, c: seq<u16>, b: u16)
    requires AllMarked(bm, c) && b < 8 * SECTOR
    ensures AllMarked(Mark(bm, b), c) && AllMarked(Mark(bm, b), c + [b])
  {
    MarkMarks(bm, b, b);
    forall k | 0 <= k < |c| ensures Marked(Mark(bm, b), c[k]) { MarkMarks(bm, b, c[k]); }
  }

  lemma LinkSlot(s: State, cs: Chains, fd: int, b: u16, j: int)
    requires CanLink(s, cs, fd, b) && 0 <= j < MAX_FILES
    ensures SlotSound(Linked1(s, fd, b), j, if j == s.fds[fd].file then cs[j] + [b] else cs[j])
  {
    assert SlotSound(s, j, cs[j]);
    MarkMore(s.bitmap, cs[j], b);
    if j == s.fds[fd].file {
      FreshBlock(s, cs, b);
      assert NoDup(cs[j] + [b]) && AllData(s.root, cs[j] + [b]);
      LinkOwn(s, cs, fd, b);
    } else {
      LinkOther(s, cs, fd, b, j);
    }
  }

  lemma DisjointMore(c: seq<u16>, d: seq<u16>, b: u16)
    requires Disjoint(c, d) && b !in c && b !in d
    ensures Disjoint(c + [b], d) && Disjoint(c, d + [b])
  {
  }

  lemma LinkSound(s: State, cs: Chains, fd: int, b: u16)
    requires CanLink(s, cs, fd, b)
    ensures SoundWith(Linked1(s, fd, b), cs[s.fds[fd].file := cs[s.fds[fd].file] + [b]])
  {
    var i := s.fds[fd].file;
    var r, cs' := Linked1(s, fd, b), cs[i := cs[i] + [b]];
    FreshBlock(s, cs, b);
    forall j | 0 <= j < MAX_FILES ensures SlotSound(r, j, cs'[j]) { LinkSlot(s, cs, fd, b, j); }
    forall j, k | 0 <= j < k < MAX_FILES ensures Disjoint(cs'[j], cs'[k]) {
      DisjointMore(cs[j], cs[k], b);
    }
  }

  lemma LinkContent(s: State, cs: Chains, fd: int, b: u16, j: int)
    requires CanLink(s, cs, fd, b) && 0 <= j < MAX_FILES
    ensures var r, cs' := Linked1(s, fd, b), cs[s.fds[fd].file := cs[s.fds[fd].file] + [b]];
            Filed(r, cs') && Content(r, cs', j) == Content(s, cs, j)
  {
    LinkSound(s, cs, fd, b);
    if j == s.fds[fd].file { LinkOwn(s, cs, fd, b); } else { LinkOther(s, cs, fd, b, j); }
  }

  lemma LinkReady(e: Fd, c: seq<u16>, b: u16)
    requires WriteReady(e, c) && e.cur == 0 && forall k :: 0 <= k < |c| ==> c[k] != 0
    requires b != 0
    ensures WriteReady(e.(cur := b, off := 0), c + [b])
  {
    assert e.pos == PAYLOAD * |c|;
  }

  lemma OverlayNothing(s: seq<byte>, pos: nat)
    requires pos <= |s|
    ensures Overlay(s, pos, []) == s
  {
  }

  /** What linking a block leaves alone. */
  ghost predicate LinkShape(s: State, fd: int, b: u16, r: State)
    requires Sane(s) && IsFileFd(s, fd)
  {
    var i := s.fds[fd].file;
    && Sane(r) && r.root == s.root && r.fds == s.fds[fd := s.fds[fd].(cur := b, off := 0)]
    && r.files == s.files[i := s.files[i].(block := r.files[i].block)]
  }

  lemma LinkShaped(s: State, fd: int, b: u16)
    requires Sane(s) && IsFileFd(s, fd) && IsData(s.root, b) && b < 8 * SECTOR && !Marked(s.bitmap, b)
    ensures LinkShape(s, fd, b, Linked1(s, fd, b)) && FreeBlocks(Linked1(s, fd, b)) + 1 == FreeBlocks(s)
  {
    MarkTakesOne(s.bitmap, s.root.dataStart, s.root.total, b);
  }

  lemma ShapeWrote(s: State, cs: Chains, fd: int, b: u16, r: State, cs': Chains)
    requires Filed(s, cs) && Filed(r, cs') && IsFileFd(s, fd) && LinkShape(s, fd, b, r)
    requires FreeBlocks(r) + 1 == FreeBlocks(s)
    requires cs' == cs[s.fds[fd].file := cs[s.fds[fd].file] + [b]] && s.fds[fd].pos <= s.files[s.fds[fd].file].size
    requires WriteReady(s.fds[fd], cs[s.fds[fd].file]) && WriteReady(r.fds[fd], cs'[s.fds[fd].file])
    requires forall j :: 0 <= j < MAX_FILES ==> Content(r, cs', j) == Content(s, cs, j)
    ensures Wrote(s, cs, r, cs', fd, [])
  {
    var e := s.fds[fd];
    assert Content(r, cs', e.file) == Content(s, cs, e.file);
    OverlayNothing(Content(s, cs, e.file), e.pos);
  }

  lemma LinkWrites(s: State, cs: Chains, fd: int, b: u16)
    requires CanLink(s, cs, fd, b)
    ensures Wrote(s, cs, Linked1(s, fd, b), cs[s.fds[fd].file := cs[s.fds[fd].file] + [b]], fd, [])
  {
    var e := s.fds[fd];
    var i := e.file;
    var r, cs' := Linked1(s, fd, b), cs[i := cs[i] + [b]];
    LinkContent(s, cs, fd, b, i);
    forall j | 0 <= j < MAX_FILES ensures Content(r, cs', j) == Content(s, cs, j) { LinkContent(s, cs, fd, b, j); }
    LinkShaped(s, fd, b);
    assert SlotSound(s, i, cs[i]);
    LinkReady(e, cs[i], b);
    ShapeWrote(s, cs, fd, b, r, cs');
  }

  /** How many bytes can still be written from the cursor on: the rest of the chain and all free blocks. */
  function Room(s: State, c: seq<u16>, e: Fd): int
    requires Sane(s) && e.FileFd?
  {
    PAYLOAD * (|c| + FreeBlocks(s)) - e.pos
  }

  ghost predicate CanWrite(s: State, cs: Chains, fd: int) {
    && Filed(s, cs) && IsFileFd(s, fd)
    && var e := s.fds[fd];
    && WriteReady(e, cs[e.file]) && e.pos <= s.files[e.file].size
  }

  /** The blocks by which a chain grew were free. */
  predicate New(bm: Sector, c: seq<u16>, c': seq<u16>) {
    forall k :: |c| <= k < |c'| ==> c'[k] < 8 * SECTOR && !Marked(bm, c'[k])
  }

  /** At most one block more, one that was free, and that only at the end of the chain. */
  predicate Grown(bm: Sector, cs: Chains, cs': Chains, e: Fd) {
    && e.FileFd? && 0 <= e.file < MAX_FILES
    && |cs[e.file]| <= |cs'[e.file]| <= |cs[e.file]| + 1 && New(bm, cs[e.file], cs'[e.file])
    && (|cs'[e.file]| > |cs[e.file]| ==> e.pos == PAYLOAD * |cs[e.file]|)
  }

  /** A chain that grew has something written in its last block. */
  predicate Snug(cs: Chains, cs': Chains, i: int, pos: nat) {
    && 0 <= i < MAX_FILES && |cs[i]| <= |cs'[i]|
    && (|cs'[i]| > |cs[i]| ==> PAYLOAD * (|cs'[i]| - 1) < pos)
  }

  lemma EnsureWrites(s: State, cs: Chains, fd: int) returns (cs': Chains)
    requires CanWrite(s, cs, fd)
    ensures var (r, ok) := EnsureBlock(s, fd);
            var e := s.fds[fd];
            && (ok ==> Wrote(s, cs, r, cs', fd, []) && AtBlock(r, r.fds[fd]))
            && (!ok ==> FreeBlocks(s) == 0 && e.pos == PAYLOAD * |cs[e.file]|)
            && (ok ==> Grown(s.bitmap, cs, cs', e))
  {
    cs' := cs;
    var e := s.fds[fd];
    var c := cs[e.file];
    assert SlotSound(s, e.file, c);
    if AtBlock(s, e) {
      assert Wrote(s, cs, s, cs, fd, []);
    } else {
      var b := AllocBlock(s).1;
      ScanFindsFree(s.bitmap, s.root.dataStart, s.root.total);
      assert e.cur == 0;
      if b != 0 {
        LinkWrites(s, cs, fd, b);
        cs' := cs[e.file := c + [b]];
      }
    }
  }

  lemma RoundWrites(s: State, cs: Chains, fd: int, data: seq<byte>) returns (cs': Chains)
    requires CanWrite(s, cs, fd) && data != [] && s.fds[fd].pos + |data| < 0x1_0000
    requires EnsureBlock(s, fd).1
    ensures var s1 := EnsureBlock(s, fd).0;
            var n := WriteSpan(s1.fds[fd], data);
            Wrote(s, cs, PutChunk(s1, fd, data[..n]), cs', fd, data[..n])
    ensures Grown(s.bitmap, cs, cs', s.fds[fd])
  {
    cs' := EnsureWrites(s, cs, fd);
    var s1 := EnsureBlock(s, fd).0;
    var n := WriteSpan(s1.fds[fd], data);
    PutChunkWrites(s1, cs', fd, data[..n]);
    WroteTwice(s, cs, s1, cs', PutChunk(s1, fd, data[..n]), cs', fd, [], data[..n], data[..n]);
  }

  /** Writing uses up exactly the room it fills. */
  lemma WroteRoom(s: State, cs: Chains, r: State, cs': Chains, fd: int, done: seq<byte>)
    requires Wrote(s, cs, r, cs', fd, done)
    ensures var i := s.fds[fd].file;
            && Room(r, cs'[i], r.fds[fd]) == Room(s, cs[i], s.fds[fd]) - |done| >= 0
            && CanWrite(r, cs', fd)
  {
  }

  lemma WroteNothing(s: State, cs: Chains, fd: int)
    requires CanWrite(s, cs, fd)
    ensures Wrote(s, cs, s, cs, fd, [])
  {
  }

  /** As many bytes of `data` as there is room for were written, and `ok` says whether that was all. */
  ghost predicate StoredFrom(s: State, cs: Chains, r: State, ok: bool, cs': Chains, fd: int, data: seq<byte>)
    requires CanWrite(s, cs, fd)
  {
    var n := Min(|data|, Room(s, cs[s.fds[fd].file], s.fds[fd]));
    0 <= n && Wrote(s, cs, r, cs', fd, data[..n]) && (ok <==> n == |data|)
  }

  lemma PrefixSplit(data: seq<byte>, n: nat, k: nat)
    requires n + k <= |data|
    ensures data[..n + k] == data[..n] + data[n..][..k]
  {
  }

  lemma StoredCount(s: State, cs: Chains, r: State, ok: bool, cs': Chains, fd: int, data: seq<byte>)
    returns (k: nat)
    requires CanWrite(s, cs, fd) && StoredFrom(s, cs, r, ok, cs', fd, data)
    ensures k == Min(|data|, Room(s, cs[s.fds[fd].file], s.fds[fd])) && (ok <==> k == |data|)
    ensures Wrote(s, cs, r, cs', fd, data[..k])
  {
    k := Min(|data|, Room(s, cs[s.fds[fd].file], s.fds[fd]));
  }

  lemma StoredAfter(s: State, cs: Chains, m: State, cm: Chains, r: State, ok: bool, cs': Chains,
                    fd: int, data: seq<byte>, n: nat)
    requires CanWrite(s, cs, fd) && n <= |data| && Wrote(s, cs, m, cm, fd, data[..n])
    requires CanWrite(m, cm, fd) && StoredFrom(m, cm, r, ok, cs', fd, data[n..])
    ensures StoredFrom(s, cs, r, ok, cs', fd, data)
  {
    WroteRoom(s, cs, m, cm, fd, data[..n]);
    var k := StoredCount(m, cm, r, ok, cs', fd, data[n..]);
    PrefixSplit(data, n, k);
    WroteTwice(s, cs, m, cm, r, cs', fd, data[..n], data[n..][..k], data[..n + k]);
    StoredIs(s, cs, r, ok, cs', fd, data, n + k);
  }

  lemma StoredIs(s: State, cs: Chains, r: State, ok: bool, cs': Chains, fd: int, data: seq<byte>, n: nat)
    requires CanWrite(s, cs, fd) && n == Min(|data|, Room(s, cs[s.fds[fd].file], s.fds[fd]))
    requires Wrote(s, cs, r, cs', fd, data[..n]) && (ok <==> n == |data|)
    ensures StoredFrom(s, cs, r, ok, cs', fd, data)
  {
  }

  /** Blocks stay marked from one turn to the next. */
  lemma TurnMarks(s: State, fd: int, chunk: seq<byte>, x: u16)
    requires Sane(s) && IsFileFd(s, fd) && EnsureBlock(s, fd).1 && x < 8 * SECTOR && Marked(s.bitmap, x)
    requires EnsureBlock(s, fd).0.fds[fd].off + |chunk| <= PAYLOAD
    ensures Marked(PutChunk(EnsureBlock(s, fd).0, fd, chunk).bitmap, x)
  {
    if !AtBlock(s, s.fds[fd]) { MarkMarks(s.bitmap, AllocBlock(s).1, x); }
  }

  lemma NewTwice(s: State, fd: int, chunk: seq<byte>, a: seq<u16>, b: seq<u16>, c: seq<u16>)
    requires Sane(s) && IsFileFd(s, fd) && EnsureBlock(s, fd).1
    requires EnsureBlock(s, fd).0.fds[fd].off + |chunk| <= PAYLOAD && |a| <= |b| && b <= c
    requires New(s.bitmap, a, b) && New(PutChunk(EnsureBlock(s, fd).0, fd, chunk).bitmap, b, c)
    ensures New(s.bitmap, a, c)
  {
    forall k | |a| <= k < |c| ensures c[k] < 8 * SECTOR && !Marked(s.bitmap, c[k]) {
      if k < |b| { assert c[k] == b[k]; } else if Marked(s.bitmap, c[k]) { TurnMarks(s, fd, chunk, c[k]); }
    }
  }

  /**
   Main result: a write through a ready descriptor stores as many bytes as there is room for, at
   the position, and nothing else; it succeeds exactly when all of them fit.
   */
  lemma {:induction false} WriteStores(s: State, cs: Chains, fd: int, data: seq<byte>) returns (cs': Chains)
    requires CanWrite(s, cs, fd) && s.fds[fd].pos + |data| < 0x1_0000
    ensures StoredFrom(s, cs, WriteLoop(s, fd, data).0, WriteLoop(s, fd, data).1, cs', fd, data)
    ensures Snug(cs, cs', s.fds[fd].file, WriteLoop(s, fd, data).0.fds[fd].pos)
    ensures New(s.bitmap, cs[s.fds[fd].file], cs'[s.fds[fd].file])
    decreases |data|
  {
    WroteNothing(s, cs, fd);
    if data == [] {
      WroteRoom(s, cs, s, cs, fd, []);
      cs' := cs;
    } else if !EnsureBlock(s, fd).1 {
      cs' := EnsureWrites(s, cs, fd);
      cs' := cs;
    } else {
      var s1 := EnsureBlock(s, fd).0;
      var n := WriteSpan(s1.fds[fd], data);
      var s2 := PutChunk(s1, fd, data[..n]);
      var cs2 := RoundWrites(s, cs, fd, data);
      WroteRoom(s, cs, s2, cs2, fd, data[..n]);
      cs' := WriteStores(s2, cs2, fd, data[n..]);
      NewTwice(s, fd, data[..n], cs[s.fds[fd].file], cs2[s.fds[fd].file], cs'[s.fds[fd].file]);
      StoredAfter(s, cs, s2, cs2, WriteLoop(s2, fd, data[n..]).0, WriteLoop(s2, fd, data[n..]).1, cs', fd, data, n);
    }
  }
}
