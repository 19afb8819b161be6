/**
 A restart without a sync. Data and next pointers are written at once, but root, bitmap and table only by
 a sync, so after a crash the table and bitmap of the last sync meet the chains of today.
 */
module MfsCrash {
  import opened Machine
  import opened MfsFormat
  import opened MfsState
  import opened MfsChains
  import opened MfsContents
  import opened MfsReads
  import opened MfsLife
  import opened MfsStructure
  import opened MfsVolume
  import opened MfsRefines

  // ---- what a write leaves alone --------------------------------------------------------------------------

  /** A sector outside the data region. */
  predicate IsMeta(s: State, x: int) { 0 <= x < |s.disk| && x < s.root.dataStart }

  lemma EnsureMeta(s: State, cs: Chains, fd: int, x: int)
    requires CanWrite(s, cs, fd) && IsMeta(s, x)
    ensures EnsureBlock(s, fd).0.disk[x] == s.disk[x] && |EnsureBlock(s, fd).0.disk| == |s.disk|
  {
    var c := cs[s.fds[fd].file];
    assert SlotSound(s, s.fds[fd].file, c);
    if c != [] { assert IsData(s.root, c[|c| - 1]); }
  }

  lemma PutMeta(s: State, cs: Chains, fd: int, chunk: seq<byte>, x: int)
    requires CanWrite(s, cs, fd) && AtBlock(s, s.fds[fd]) && s.fds[fd].off + |chunk| <= PAYLOAD && IsMeta(s, x)
    ensures PutChunk(s, fd, chunk).disk[x] == s.disk[x] && |PutChunk(s, fd, chunk).disk| == |s.disk|
  {
    var e := s.fds[fd];
    var c := cs[e.file];
    assert SlotSound(s, e.file, c);
    assert IsData(s.root, c[e.pos / PAYLOAD]);
  }

  /** Writes go to data sectors. */
  lemma {:induction false} WriteMeta(s: State, cs: Chains, fd: int, data: seq<byte>, x: int)
    requires CanWrite(s, cs, fd) && s.fds[fd].pos + |data| < 0x1_0000 && IsMeta(s, x)
    ensures WriteLoop(s, fd, data).0.disk[x] == s.disk[x] && |WriteLoop(s, fd, data).0.disk| == |s.disk|
    decreases |data|
  {
    if data != [] {
      EnsureMeta(s, cs, fd, x);
      var (s1, ok) := EnsureBlock(s, fd);
      if ok {
        var n := WriteSpan(s1.fds[fd], data);
        var cs1 := EnsureWrites(s, cs, fd);
        PutMeta(s1, cs1, fd, data[..n], x);
        var s2 := PutChunk(s1, fd, data[..n]);
        var cs2 := RoundWrites(s, cs, fd, data);
        WroteRoom(s, cs, s2, cs2, fd, data[..n]);
        WriteMeta(s2, cs2, fd, data[n..], x);
      }
    }
  }

  /** Writes take no mark away. */
  lemma {:induction false} WriteMarks(s: State, fd: int, data: seq<byte>, x: u16)
    requires Sane(s) && IsFileFd(s, fd) && x < 8 * SECTOR && Marked(s.bitmap, x)
    ensures Marked(WriteLoop(s, fd, data).0.bitmap, x)
    decreases |data|
  {
    if data != [] {
      var (s1, ok) := EnsureBlock(s, fd);
      if ok {
        var n := WriteSpan(s1.fds[fd], data);
        TurnMarks(s, fd, data[..n], x);
        WriteMarks(PutChunk(s1, fd, data[..n]), fd, data[n..], x);
      }
    }
  }

  // ---- since the last sync ---------------------------------------------------------------------------------

  /** Operations that do not sync: reads, writes, seeks, and opening files that exist. */
  predicate Quiet(v: Volume, op: Op) {
    match op
    case OpRead(_, _) => true
    case OpWrite(_, _) => true
    case OpSeek(_, _, _, _) => true
    case OpOpen(name, flags, _) => Index(v.files, name) != -1 || !Makes(flags)
    case _ => false
  }

  predicate AllQuiet(v: Volume, es: seq<Event>)
    decreases |es|
  {
    es == [] || (es[0].Ask? && Quiet(v, es[0].op) && AllQuiet(DoEvent(v, es[0]).0, es[1..]))
  }

  /** The same files, none shorter. */
  predicate Longer(v: Volume, w: Volume) {
    && |w.files| == |v.files| && w.max == v.max
    && forall i :: 0 <= i < |v.files| ==>
         w.files[i].name == v.files[i].name && |v.files[i].bytes| <= |w.files[i].bytes|
  }

  ghost predicate Since(s: State, cs: Chains, v: Volume, r: State, cs': Chains, w: Volume) {
    && Rep(s, cs, v) && Rep(r, cs', w) && r.root == s.root && |r.disk| == |s.disk|
    && (forall x {:trigger r.disk[x]} :: IsMeta(s, x) ==> r.disk[x] == s.disk[x])
    && Extended(s.bitmap, cs, cs') && Longer(v, w)
    && forall x: u16 :: x < 8 * SECTOR && Marked(s.bitmap, x) ==> Marked(r.bitmap, x)
  }

  lemma SinceTwice(s: State, cs: Chains, v: Volume, m: State, cm: Chains, u: Volume, r: State, cr: Chains, w: Volume)
    requires Since(s, cs, v, m, cm, u) && Since(m, cm, u, r, cr, w)
    ensures Since(s, cs, v, r, cr, w)
  {
    forall j | 0 <= j < MAX_FILES ensures cs[j] <= cr[j] && New(s.bitmap, cs[j], cr[j]) {
      forall k | |cs[j]| <= k < |cr[j]| ensures cr[j][k] < 8 * SECTOR && !Marked(s.bitmap, cr[j][k]) {
        if k < |cm[j]| { assert cr[j][k] == cm[j][k]; }
      }
    }
  }

  lemma SinceNothing(s: State, cs: Chains, v: Volume, r: State, w: Volume)
    requires Rep(s, cs, v) && Rep(r, cs, w) && r == s.(fds := r.fds) && w == v.(fds := w.fds)
    ensures Since(s, cs, v, r, cs, w)
  {
  }

  lemma WriteSince(s: State, cs: Chains, v: Volume, fd: int, data: seq<byte>) returns (cs': Chains)
    requires Rep(s, cs, v) && Disciplined(v, OpWrite(fd, data))
    ensures Since(s, cs, v, Write(s, fd, data).0, cs', WriteFile(v, fd, data).0)
  {
    cs' := WriteRefines(s, cs, v, fd, data);
    IsHandleOk(s, cs, v, fd);
    var r := Write(s, fd, data).0;
    if IsHandle(v, fd) && v.fds[fd].mode in {WriteOnly, ReadWrite} {
      WritableIsReady(s, cs, v, fd);
      WriteMeta(s, cs, fd, data, 0);
      forall x | IsMeta(s, x) ensures r.disk[x] == s.disk[x] { WriteMeta(s, cs, fd, data, x); }
      forall x: u16 | x < 8 * SECTOR && Marked(s.bitmap, x) ensures Marked(r.bitmap, x) { WriteMarks(s, fd, data, x); }
    }
  }

  lemma QuietSince(s: State, cs: Chains, v: Volume, op: Op) returns (cs': Chains)
    requires Rep(s, cs, v) && Disciplined(v, op) && Quiet(v, op)
    ensures Since(s, cs, v, Call(s, op).0, cs', Do(v, op).0)
  {
    cs' := cs;
    match op
    case OpRead(fd, count) =>
      ReadRefines(s, cs, v, fd, count);
      SinceNothing(s, cs, v, Read(s, fd, count).0, ReadFile(v, fd, count).0);
    case OpSeek(fd, pos, whence, junk) =>
      SeekRefines(s, cs, v, fd, pos, whence, junk);
      SinceNothing(s, cs, v, Seek(s, fd, pos, whence, junk).0, SeekFile(v, fd, pos, whence).0);
    case OpOpen(name, flags, junk) =>
      FlagBits(flags);
      Finds(s, cs, v, name);
      var i := Index(v.files, name);
      if i != -1 { AttachRefines(s, cs, v, i, flags, junk); }
      SinceNothing(s, cs, v, Open(s, name, flags, junk).0, OpenFile(v, name, flags, junk).0);
    case OpWrite(fd, data) =>
      cs' := WriteSince(s, cs, v, fd, data);
  }

  lemma {:induction false} RunSince(s: State, cs: Chains, v: Volume, es: seq<Event>) returns (cs': Chains)
    requires Rep(s, cs, v) && AllDisciplined(v, es) && AllQuiet(v, es)
    ensures ShortWrites(es) && Since(s, cs, v, CallAll(s, es).0, cs', DoAll(v, es).0)
    decreases |es|
  {
    if es == [] {
      cs' := cs;
      SinceNothing(s, cs, v, s, v);
    } else {
      var op := es[0].op;
      var c := QuietSince(s, cs, v, op);
      var t, u := Call(s, op).0, Do(v, op).0;
      cs' := RunSince(t, c, u, es[1..]);
      assert es == [es[0]] + es[1..];
      SinceTwice(s, cs, v, t, c, u, CallAll(t, es[1..]).0, cs', DoAll(u, es[1..]).0);
    }
  }

  // ---- the crash ---------------------------------------------------------------------------------------------

  /** The three sectors on disk are those in memory. */
  predicate Synced(s: State)
    requires Sane(s)
  {
    WriteChanges(s) == s
  }

  /** What the kernel finds when it starts again. */
  function Found(s: State, r: State): State { s.(disk := r.disk, fds := BootFds()) }

  lemma CrashMounts(s: State, cs: Chains, v: Volume, r: State, cs': Chains, w: Volume)
    requires Since(s, cs, v, r, cs', w) && Synced(s)
    ensures Mount(r.disk) == Mounted(Found(s, r)) && Sane(Found(s, r))
  {
    RemountRestores(s);
    assert IsMeta(s, 0) && IsMeta(s, s.root.bitmapSector) && IsMeta(s, s.root.fentrySector);
    assert r.disk[0] == s.disk[0] && r.disk[s.root.bitmapSector] == s.disk[s.root.bitmapSector];
    assert r.disk[s.root.fentrySector] == s.disk[s.root.fentrySector];
  }

  /** No file has grown by a block. */
  predicate SameBlocks(v: Volume, w: Volume)
    requires |w.files| == |v.files|
  {
    forall i :: 0 <= i < |v.files| ==> Blocks(|w.files[i].bytes|) == Blocks(|v.files[i].bytes|)
  }

  /** Every file cut back to the length it had. */
  function CutBack(v: Volume, w: Volume): Volume
    requires Longer(v, w)
  {
    var files := seq(|v.files|, i requires 0 <= i < |v.files| =>
                     File(v.files[i].name, w.files[i].bytes[..|v.files[i].bytes|]));
    Volume(files, BootHandles(), v.free, v.max)
  }

  /** Chains as long as before are the same chains. */
  lemma SameChains(s: State, cs: Chains, v: Volume, r: State, cs': Chains, w: Volume)
    requires Since(s, cs, v, r, cs', w) && SameBlocks(v, w)
    ensures cs' == cs
  {
    forall j | 0 <= j < MAX_FILES ensures cs'[j] == cs[j] {
      if j < |v.files| { assert FileOk(s, cs, j, v.files[j]) && FileOk(r, cs', j, w.files[j]); }
    }
  }

  /** A chain's head does not move while the file has a block. */
  lemma SameHead(s: State, cs: Chains, v: Volume, r: State, cs': Chains, w: Volume, j: int)
    requires Since(s, cs, v, r, cs', w) && 0 <= j < MAX_FILES
    ensures r.files[j].block == s.files[j].block
  {
    assert SlotSound(s, j, cs[j]) && SlotSound(r, j, cs'[j]);
    if j < |v.files| { assert FileOk(s, cs, j, v.files[j]); }
  }

  lemma FoundSound(s: State, cs: Chains, v: Volume, r: State, w: Volume)
    requires Since(s, cs, v, r, cs, w) && Sane(Found(s, r))
    ensures Filed(Found(s, r), cs)
  {
    var m := Found(s, r);
    forall j | 0 <= j < MAX_FILES ensures SlotSound(m, j, cs[j]) {
      SameHead(s, cs, v, r, cs, w, j);
      assert SlotSound(s, j, cs[j]) && SlotSound(r, j, cs[j]);
    }
  }

  lemma FoundFiles(s: State, cs: Chains, v: Volume, r: State, w: Volume)
    requires Since(s, cs, v, r, cs, w) && Sane(Found(s, r)) && SameBlocks(v, w)
    ensures Rep(Found(s, r), cs, CutBack(v, w))
  {
    var m, u := Found(s, r), CutBack(v, w);
    FoundSound(s, cs, v, r, w);
    forall i | 0 <= i < |v.files| ensures FileOk(m, cs, i, u.files[i]) {
      assert FileOk(s, cs, i, v.files[i]) && FileOk(r, cs, i, w.files[i]);
      assert SlotSound(r, i, cs[i]);
      assert Content(m, cs, i) == Content(r, cs, i)[..s.files[i].size];
    }
    forall d | 0 <= d < FD_MAX ensures MfsRefines.FdOk(BootFds()[d], BootHandles()[d], cs, |u.files|) {
      assert BootFds()[d] == BootFd(d);
    }
  }

  /** A file that has grown by a block has one that the old bitmap calls free. */
  lemma GrownUnsound(s: State, cs: Chains, v: Volume, r: State, cs': Chains, w: Volume, i: int)
    requires Since(s, cs, v, r, cs', w) && Sane(Found(s, r)) && 0 <= i < |v.files|
    requires Blocks(|w.files[i].bytes|) != Blocks(|v.files[i].bytes|)
    ensures !Sound(Found(s, r))
  {
    var m := Found(s, r);
    assert FileOk(s, cs, i, v.files[i]) && FileOk(r, cs', i, w.files[i]);
    assert SlotSound(r, i, cs'[i]);
    SameHead(s, cs, v, r, cs', w, i);
    var k := |cs[i]|;
    assert k < |cs'[i]| && !Marked(s.bitmap, cs'[i][k]);
    forall c: Chains ensures !SoundWith(m, c) {
      if SoundWith(m, c) {
        assert SlotSound(m, i, c[i]);
        ChainUnique(r.disk, m.files[i].block, c[i], cs'[i]);
      }
    }
  }

  /**
   Main result: after a crash the volume is sound if and only if no file has grown by a block since the last
   sync; and then it holds every file as last written, cut back to the length it had at that sync.
   */
  lemma CrashRecovers(s: State, cs: Chains, v: Volume, es: seq<Event>) returns (m: State)
    requires Rep(s, cs, v) && Synced(s) && AllDisciplined(v, es) && AllQuiet(v, es)
    ensures ShortWrites(es) && Mount(CallAll(s, es).0.disk) == Mounted(m) && Sane(m)
    ensures var w := DoAll(v, es).0;
            Longer(v, w) && (Sound(m) <==> SameBlocks(v, w)) && (Sound(m) ==> Rep(m, cs, CutBack(v, w)))
  {
    var cs' := RunSince(s, cs, v, es);
    var r, w := CallAll(s, es).0, DoAll(v, es).0;
    CrashMounts(s, cs, v, r, cs', w);
    m := Found(s, r);
    if SameBlocks(v, w) {
      SameChains(s, cs, v, r, cs', w);
      FoundFiles(s, cs, v, r, w);
      assert SoundWith(m, cs);
    } else {
      var i :| 0 <= i < |v.files| && Blocks(|w.files[i].bytes|) != Blocks(|v.files[i].bytes|);
      GrownUnsound(s, cs, v, r, cs', w, i);
    }
  }
}
