/**
 Files do not interfere: a run that neither writes through a descriptor of a file, nor deletes it,
 leaves its entry, its chain and its bytes alone, whatever it does to the others.
 */
module MfsIsolation {
  import opened Machine
  import opened MfsFormat
  import opened MfsState
  import opened MfsChains
  import opened MfsContents
  import opened MfsStructure

  /** The steps that are about slot `i`. */
  predicate Touches(s: State, op: Op, i: int)
    requires Sane(s)
  {
    match op
    case OpWrite(fd, _) => IsFileFd(s, fd) && s.fds[fd].file == i
    case OpDelete(name) => FindFile(s, name) == i
    case OpOpen(name, flags, _) => FindFile(s, name) == -1 && Creat(flags) && Create(s, name, flags).1 == i
    case _ => false
  }

  predicate Untouched(s: State, ops: seq<Op>, i: int)
    requires Sane(s) && RunAllowed(s, ops)
    decreases |ops|
  {
    ops == [] || (!Touches(s, ops[0], i) && Untouched(Step(s, ops[0]), ops[1..], i))
  }

  // ---- one step, one block ------------------------------------------------------------------------

  ghost predicate OwnedByOther(g: Ledger, x: u16, slot: int) {
    x in g.owner && g.owner[x] != slot
  }

  lemma SyncIsolated(s: State, g: Ledger, x: u16)
    requires Tracked(s, g) && x in g.owner
    ensures WriteChanges(s).disk[x] == s.disk[x]
  {
  }

  lemma RoundIsolated(s: State, g: Ledger, fd: int, x: u16)
    requires Tracked(s, g) && IsFileFd(s, fd) && OwnedByOther(g, x, s.fds[fd].file)
    ensures var r := EnsureBlock(s, fd).0;
            r.disk[x] == s.disk[x] && r.fds[fd].file == s.fds[fd].file
  {
  }

  lemma {:induction false} WriteIsolated(s: State, g: Ledger, fd: int, data: seq<byte>, x: u16)
    requires Tracked(s, g) && IsFileFd(s, fd) && OwnedByOther(g, x, s.fds[fd].file)
    ensures WriteLoop(s, fd, data).0.disk[x] == s.disk[x]
    decreases |data|
  {
    if data != [] {
      RoundIsolated(s, g, fd, x);
      var g' := EnsureBlockKeeps(s, g, fd);
      var (s1, ok) := EnsureBlock(s, fd);
      if ok {
        var n := WriteSpan(s1.fds[fd], data);
        assert FdOk(s1.fds[fd], g') && x in g'.owner;
        PutChunkKeeps(s1, g', fd, data[..n]);
        WriteIsolated(PutChunk(s1, fd, data[..n]), g', fd, data[n..], x);
      }
    }
  }

  lemma {:induction false} EraseIsolated(
      disk: seq<Sector>, bm: Sector, total: u16, g: Ledger, slot: int, b: u16, x: u16)
    requires total <= |disk| && total <= 8 * SECTOR && x < |disk| && OwnedByOther(g, x, slot) && Belongs(g, b, slot)
    requires forall y :: y in g.owner ==> y < |disk|
    requires forall y {:trigger Next(disk[y])} :: y in g.owner && g.owner[y] == slot ==> Belongs(g, Next(disk[y]), slot)
    ensures EraseWalk(disk, bm, total, b).0[x] == disk[x]
    decreases Linked(disk, total), if b == 0 then 0 else 1
  {
    if b != 0 && b < total {
      LinkedZeroed(disk, b, total);
      EraseIsolated(disk[b := ZeroSector()], Unmark(bm, b), total, g, slot, Next(disk[b]), x);
    }
  }

  lemma DeleteIsolated(s: State, g: Ledger, name: CString, i: int, x: u16)
    requires Tracked(s, g) && FindFile(s, name) != i && 0 <= i < MAX_FILES && x in g.owner && g.owner[x] == i
    ensures Delete(s, name).0.disk[x] == s.disk[x]
  {
    var j := FindFile(s, name);
    if j != -1 {
      EraseIsolated(s.disk, s.bitmap, s.root.total, g, j, s.files[j].block, x);
      assert IsData(s.root, x);
    }
  }

  lemma OpenIsolated(s: State, g: Ledger, op: Op, i: int, x: u16)
    requires Tracked(s, g) && op.OpOpen? && !Touches(s, op, i) && 0 <= i < MAX_FILES && x in g.owner
    ensures Step(s, op).disk[x] == s.disk[x]
  {
    assert IsData(s.root, x);
  }

  lemma StepIsolated(s: State, g: Ledger, op: Op, i: int, x: u16)
    requires Tracked(s, g) && Allowed(s, op) && !Touches(s, op, i)
    requires 0 <= i < MAX_FILES && x in g.owner && g.owner[x] == i
    ensures Step(s, op).disk[x] == s.disk[x]
  {
    match op
    case OpOpen(_, _, _) => OpenIsolated(s, g, op, i, x);
    case OpClose(fd) => SyncIsolated(s, g, x);
    case OpRead(fd, count) =>
    case OpWrite(fd, data) =>
      if IsFileFd(s, fd) { WriteIsolated(s, g, fd, data, x); }
    case OpSeek(_, _, _, _) =>
    case OpSync => SyncIsolated(s, g, x);
    case OpDelete(name) => DeleteIsolated(s, g, name, i, x);
  }

  lemma {:induction false} WriteEntries(s: State, fd: int, data: seq<byte>)
    requires Sane(s) && IsFileFd(s, fd)
    ensures var r := WriteLoop(s, fd, data).0;
            && |r.disk| == |s.disk|
            && forall j :: 0 <= j < MAX_FILES && j != s.fds[fd].file ==> r.files[j] == s.files[j]
    decreases |data|
  {
    if data != [] && EnsureBlock(s, fd).1 {
      var s1 := EnsureBlock(s, fd).0;
      var n := WriteSpan(s1.fds[fd], data);
      WriteEntries(PutChunk(s1, fd, data[..n]), fd, data[n..]);
    }
  }

  lemma OpenEntries(s: State, op: Op, i: int)
    requires Sane(s) && op.OpOpen? && !Touches(s, op, i) && 0 <= i < MAX_FILES
    ensures Step(s, op).files[i] == s.files[i] && |Step(s, op).disk| == |s.disk|
  {
  }

  lemma DeleteEntries(s: State, op: Op, i: int)
    requires Sane(s) && op.OpDelete? && Allowed(s, op) && !Touches(s, op, i) && 0 <= i < MAX_FILES
    ensures Step(s, op).files[i] == s.files[i] && |Step(s, op).disk| == |s.disk|
  {
  }

  lemma EntryIsolated(s: State, op: Op, i: int)
    requires Sane(s) && Allowed(s, op) && !Touches(s, op, i) && 0 <= i < MAX_FILES
    ensures Step(s, op).files[i] == s.files[i] && |Step(s, op).disk| == |s.disk|
  {
    match op
    case OpWrite(fd, data) => if IsFileFd(s, fd) { WriteEntries(s, fd, data); }
    case OpOpen(_, _, _) => OpenEntries(s, op, i);
    case OpDelete(_) => DeleteEntries(s, op, i);
    case _ =>
  }

  // ---- whole runs -------------------------------------------------------------------------------------

  ghost predicate SameFile(s: State, r: State, i: int, c: seq<u16>) {
    && 0 <= i < |s.files| == |r.files| && r.files[i] == s.files[i] && |r.disk| == |s.disk|
    && InDisk(s.disk, c) && forall k :: 0 <= k < |c| ==> r.disk[c[k]] == s.disk[c[k]]
  }

  lemma OwnChain(s: State, g: Ledger, i: int, c: seq<u16>)
    requires Tracked(s, g) && 0 <= i < MAX_FILES && IsChain(s.disk, s.files[i].block, c)
    ensures AllBelong(g, c, i)
  {
    var d := ChainFrom(s.disk, g, s.files[i].block, i);
    ChainUnique(s.disk, s.files[i].block, c, d);
  }

  lemma StepSameFile(s: State, g: Ledger, op: Op, i: int, c: seq<u16>)
    requires Tracked(s, g) && Allowed(s, op) && !Touches(s, op, i) && 0 <= i < MAX_FILES
    requires IsChain(s.disk, s.files[i].block, c)
    ensures SameFile(s, Step(s, op), i, c)
  {
    OwnChain(s, g, i, c);
    forall k | 0 <= k < |c| ensures Step(s, op).disk[c[k]] == s.disk[c[k]] { StepIsolated(s, g, op, i, c[k]); }
    EntryIsolated(s, op, i);
  }

  lemma {:induction false} RunSameFile(s: State, g: Ledger, ops: seq<Op>, i: int, c: seq<u16>)
    requires Tracked(s, g) && RunAllowed(s, ops) && Untouched(s, ops, i) && 0 <= i < MAX_FILES
    requires IsChain(s.disk, s.files[i].block, c)
    ensures SameFile(s, Run(s, ops), i, c)
    decreases |ops|
  {
    if ops != [] {
      var r := Step(s, ops[0]);
      StepSameFile(s, g, ops[0], i, c);
      var g' := StepKeeps(s, g, ops[0]);
      ChainElsewhere(s.disk, r.disk, s.files[i].block, c, 0);
      RunSameFile(r, g', ops[1..], i, c);
    }
  }

  /**
   Main result: from any sound volume with no file open yet, every run that does not touch slot `i`
   leaves its chain and all the bytes along it unchanged, however carelessly other files are used.
   */
  lemma RunsIsolateFiles(s: State, cs: Chains, ops: seq<Op>, i: int)
    requires SoundWith(s, cs) && RunAllowed(s, ops) && Untouched(s, ops, i) && 0 <= i < MAX_FILES
    requires forall d :: 0 <= d < FD_MAX ==> !s.fds[d].FileFd?
    ensures var r := Run(s, ops);
            && r.files[i] == s.files[i] && IsChain(r.disk, r.files[i].block, cs[i])
            && InDisk(s.disk, cs[i]) && InDisk(r.disk, cs[i])
            && Bytes(r.disk, cs[i], PAYLOAD * |cs[i]|) == Bytes(s.disk, cs[i], PAYLOAD * |cs[i]|)
  {
    assert SlotSound(s, i, cs[i]);
    SoundLedger(s, cs);
    RunSameFile(s, LedgerOf(cs), ops, i, cs[i]);
    ChainElsewhere(s.disk, Run(s, ops).disk, s.files[i].block, cs[i], PAYLOAD * |cs[i]|);
  }
}
