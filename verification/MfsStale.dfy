/**
 When a write goes wrong. Reads and seeks do not maintain `prev_block`; a write that starts at the
 end of the chain then links its new block in the wrong place. The file is left with a recorded
 size its chain can no longer hold, so a ready descriptor is not only enough but needed.
 */
module MfsStale {
  import opened Machine
  import opened MfsFormat
  import opened MfsState
  import opened MfsChains
  import opened MfsContents

  function Relinked(disk: seq<Sector>, prev: u16, b: u16): seq<Sector>
    requires b < |disk| && prev < |disk|
  {
    var d := disk[b := BlankBlock()];
    d[prev := SetNext(d[prev], b)]
  }

  lemma RelinkInside(disk: seq<Sector>, head: u16, c: seq<u16>, k: nat, b: u16)
    requires IsChain(disk, head, c) && NoDup(c) && 0 < b < |disk| && b !in c && k < |c|
    ensures IsChain(Relinked(disk, c[k], b), head, c[..k + 1] + [b]) && NoDup(c[..k + 1] + [b])
  {
    var d, c' := Relinked(disk, c[k], b), c[..k + 1] + [b];
    assert c'[k] == c[k] && c'[k + 1] == b && forall j :: 0 <= j < k ==> c'[j] == c[j];
    forall j | 0 <= j < |c'| ensures Next(d[c'[j]]) == After(c', j) {
      if j < k { assert Next(disk[c[j]]) == After(c, j); }
    }
  }

  lemma RelinkOutside(disk: seq<Sector>, head: u16, c: seq<u16>, prev: u16, b: u16)
    requires IsChain(disk, head, c) && 0 < b < |disk| && b !in c && prev < |disk| && prev !in c
    ensures IsChain(Relinked(disk, prev, b), head, c)
  {
    var d := Relinked(disk, prev, b);
    forall j | 0 <= j < |c| ensures Next(d[c[j]]) == After(c, j) { assert Next(disk[c[j]]) == After(c, j); }
  }

  /** Redirecting `prev` to a fresh last block cuts the chain there, extends it, or misses it. */
  lemma Relink(disk: seq<Sector>, head: u16, c: seq<u16>, prev: u16, b: u16) returns (c': seq<u16>)
    requires IsChain(disk, head, c) && NoDup(c) && 0 < b < |disk| && b !in c && 0 < prev < |disk| && prev != b
    ensures IsChain(Relinked(disk, prev, b), head, c') && NoDup(c')
    ensures |c'| <= |c| + 1 && (prev != Last(c) ==> |c'| <= |c|)
    ensures forall x :: x in c' ==> x in c || x == b
  {
    if prev in c {
      var k :| 0 <= k < |c| && c[k] == prev;
      c' := c[..k + 1] + [b];
      RelinkInside(disk, head, c, k, b);
    } else {
      c' := c;
      RelinkOutside(disk, head, c, prev, b);
    }
  }

  /** Slot `i` has chain `c`, and the descriptor's position has run ahead of what `c` can hold. */
  ghost predicate Ahead(s: State, fd: int, c: seq<u16>) {
    && Sane(s) && IsFileFd(s, fd)
    && var e := s.fds[fd];
    && SlotSound(s, e.file, c)
    && (if AtBlock(s, e)
        then Next(s.disk[e.cur]) == 0 && Marked(s.bitmap, e.cur) && PAYLOAD * |c| <= e.pos - e.off
        else e.cur == 0 && e.prev != 0 && Marked(s.bitmap, e.prev) && PAYLOAD * (|c| + 1) <= e.pos)
  }

  lemma LinkedAhead(s: State, fd: int, c: seq<u16>, c': seq<u16>, b: u16)
    requires Sane(s) && IsFileFd(s, fd) && IsData(s.root, b) && !Marked(s.bitmap, b)
    requires SlotSound(s, s.fds[fd].file, c)
    requires var r := Linked1(s, fd, b);
             IsChain(r.disk, r.files[s.fds[fd].file].block, c') && NoDup(c')
    requires forall x :: x in c' ==> x in c || x == b
    requires PAYLOAD * |c'| <= s.fds[fd].pos && s.fds[fd].prev != b
    ensures Ahead(Linked1(s, fd, b), fd, c')
  {
    MarkMarks(s.bitmap, b, b);
    forall j | 0 <= j < |c'| ensures IsData(s.root, c'[j]) && Marked(Mark(s.bitmap, b), c'[j]) {
      assert c'[j] in c';
      assert c'[j] == b || c'[j] in c;
      MarkMarks(s.bitmap, b, c'[j]);
    }
  }

  /** The next block of a run-ahead write may join the chain, but never makes up for the lead. */
  lemma EnsureAhead(s: State, fd: int, c: seq<u16>) returns (c': seq<u16>)
    requires Ahead(s, fd, c)
    ensures EnsureBlock(s, fd).1 ==> Ahead(EnsureBlock(s, fd).0, fd, c')
  {
    var e := s.fds[fd];
    c' := c;
    var b := AllocBlock(s).1;
    if !AtBlock(s, e) && b != 0 {
      assert b !in c;
      c' := Relink(s.disk, s.files[e.file].block, c, e.prev, b);
      LinkedAhead(s, fd, c, c', b);
    }
  }

  lemma PutSlot(s: State, fd: int, c: seq<u16>, chunk: seq<byte>)
    requires Sane(s) && IsFileFd(s, fd) && AtBlock(s, s.fds[fd]) && SlotSound(s, s.fds[fd].file, c)
    requires s.fds[fd].off + |chunk| <= PAYLOAD
    ensures SlotSound(PutChunk(s, fd, chunk), s.fds[fd].file, c)
  {
    var r := PutChunk(s, fd, chunk);
    forall j | 0 <= j < |c| ensures Next(r.disk[c[j]]) == After(c, j) { assert Next(s.disk[c[j]]) == After(c, j); }
  }

  lemma PutAhead(s: State, fd: int, c: seq<u16>, chunk: seq<byte>)
    requires Ahead(s, fd, c) && AtBlock(s, s.fds[fd]) && chunk != []
    requires s.fds[fd].off + |chunk| <= PAYLOAD && s.fds[fd].pos + |chunk| < 0x1_0000
    ensures var r := PutChunk(s, fd, chunk);
            && Ahead(r, fd, c) && r.fds[fd].pos == s.fds[fd].pos + |chunk|
            && r.fds[fd].file == s.fds[fd].file && PAYLOAD * |c| < r.files[s.fds[fd].file].size
  {
    PutSlot(s, fd, c, chunk);
    var e, r := s.fds[fd], PutChunk(s, fd, chunk);
    assert (e.pos + |chunk|) % 0x1_0000 == e.pos + |chunk|;
    assert r.fds[fd] == WriteAdvance(e, |chunk|, 0);
    assert r.bitmap == s.bitmap && r.disk[e.cur] == Patch(s.disk[e.cur], e.off, chunk);
  }

  /** Once ahead, always ahead: the chain never catches up with the size. */
  lemma {:induction false} StaysAhead(s: State, fd: int, c: seq<u16>, data: seq<byte>) returns (c': seq<u16>)
    requires Ahead(s, fd, c) && s.fds[fd].pos + |data| < 0x1_0000
    requires PAYLOAD * |c| < s.files[s.fds[fd].file].size || (data != [] && AtBlock(s, s.fds[fd]))
    ensures var (r, i) := (WriteLoop(s, fd, data).0, s.fds[fd].file);
            SlotSound(r, i, c') && PAYLOAD * |c'| < r.files[i].size
    decreases |data|
  {
    c' := c;
    if data != [] && EnsureBlock(s, fd).1 {
      var s1 := EnsureBlock(s, fd).0;
      c' := EnsureAhead(s, fd, c);
      var n := WriteSpan(s1.fds[fd], data);
      PutAhead(s1, fd, c', data[..n]);
      c' := StaysAhead(PutChunk(s1, fd, data[..n]), fd, c', data[n..]);
    }
  }

  /** A write at the end of the chain whose descriptor does not remember the last block. */
  ghost predicate Stale(s: State, cs: Chains, fd: int) {
    && Filed(s, cs) && IsFileFd(s, fd)
    && var e := s.fds[fd];
    && CursorAt(e, cs[e.file]) && e.pos <= s.files[e.file].size && !WriteReady(e, cs[e.file])
    && (e.prev != 0 ==> Marked(s.bitmap, e.prev))
  }

  lemma StaleStart(s: State, cs: Chains, fd: int) returns (c: seq<u16>)
    requires Stale(s, cs, fd) && FreeBlocks(s) > 0
    ensures EnsureBlock(s, fd).1 && Ahead(EnsureBlock(s, fd).0, fd, c)
    ensures var (s1, e) := (EnsureBlock(s, fd).0, s.fds[fd]);
            s1.fds[fd].pos == e.pos && s1.fds[fd].file == e.file
  {
    var e := s.fds[fd];
    var c0 := cs[e.file];
    assert SlotSound(s, e.file, c0);
    var b := AllocBlock(s).1;
    ScanFindsFree(s.bitmap, s.root.dataStart, s.root.total);
    assert b !in c0 && e.cur == 0;
    if e.prev == 0 {
      c := [b];
    } else {
      c := Relink(s.disk, s.files[e.file].block, c0, e.prev, b);
    }
    LinkedAhead(s, fd, c0, c, b);
  }

  /** Every file's chain is sound and long enough for its recorded size. */
  ghost predicate Intact(s: State) {
    exists cs: Chains :: Filed(s, cs)
  }

  lemma StaleLosesBytes(s: State, cs: Chains, fd: int, data: seq<byte>)
    requires Stale(s, cs, fd) && FreeBlocks(s) > 0 && data != [] && s.fds[fd].pos + |data| < 0x1_0000
    ensures !Intact(WriteLoop(s, fd, data).0)
  {
    var (r, i) := (WriteLoop(s, fd, data).0, s.fds[fd].file);
    var s1 := EnsureBlock(s, fd).0;
    var c := StaleStart(s, cs, fd);
    var n := WriteSpan(s1.fds[fd], data);
    PutAhead(s1, fd, c, data[..n]);
    var c' := StaysAhead(PutChunk(s1, fd, data[..n]), fd, c, data[n..]);
    if Intact(r) {
      var cs': Chains :| Filed(r, cs');
      assert SlotSound(r, i, cs'[i]);
      ChainUnique(r.disk, r.files[i].block, c', cs'[i]);
    }
  }

  /**
   Main result: with the cursor in place and room for at least one byte, the file can still hold
   its recorded size after the write if and only if the descriptor was ready to write.
   */
  lemma WriteNeedsReady(s: State, cs: Chains, fd: int, data: seq<byte>)
    requires Filed(s, cs) && IsFileFd(s, fd) && data != [] && FreeBlocks(s) > 0
    requires var e := s.fds[fd];
             && CursorAt(e, cs[e.file]) && e.pos <= s.files[e.file].size && e.pos + |data| < 0x1_0000
             && (e.prev != 0 ==> Marked(s.bitmap, e.prev))
    ensures Intact(WriteLoop(s, fd, data).0) <==> WriteReady(s.fds[fd], cs[s.fds[fd].file])
  {
    if WriteReady(s.fds[fd], cs[s.fds[fd].file]) {
      var cs' := WriteStores(s, cs, fd, data);
      assert Filed(WriteLoop(s, fd, data).0, cs');
    } else {
      StaleLosesBytes(s, cs, fd, data);
    }
  }
}
