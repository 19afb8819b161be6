/**
 Chains stay sound over every run, whatever the descriptors do: several descriptors on one file,
 any mix of reads, writes, seeks and append mode, writes that run out of space. The argument keeps
 a ledger beside the state. A block enters it when it is linked into a file; a next pointer is only
 ever redirected to a block allocated that moment, so allocation order is a strict order along
 every link, and links never leave the file.
 */
module MfsStructure {
  import opened Machine
  import opened MfsFormat
  import opened MfsState
  import opened MfsChains

  datatype Op =
    | OpOpen(name: CString, flags: u16, junk: u16)
    | OpClose(fd: int)
    | OpRead(fd: int, count: u16)
    | OpWrite(fd: int, data: seq<byte>)
    | OpSeek(fd: int, pos: u16, whence: int, junk: u16)
    | OpSync
    | OpDelete(name: CString)

  predicate Closed(s: State, slot: int) {
    forall d :: 0 <= d < |s.fds| ==> s.fds[d].FileFd? ==> s.fds[d].file != slot
  }

  /** Counts are 16-bit; a file is deleted only while no descriptor is open on it. */
  predicate Allowed(s: State, op: Op)
    requires Sane(s)
  {
    match op
    case OpWrite(_, data) => |data| < 0x1_0000
    case OpDelete(name) => FindFile(s, name) != -1 ==> Closed(s, FindFile(s, name))
    case _ => true
  }

  function Step(s: State, op: Op): (r: State)
    requires Sane(s) && Allowed(s, op)
    ensures Sane(r)
  {
    match op
    case OpOpen(name, flags, junk) => Open(s, name, flags, junk).0
    case OpClose(fd) => Close(s, fd).0
    case OpRead(fd, count) => Read(s, fd, count).0
    case OpWrite(fd, data) => Write(s, fd, data).0
    case OpSeek(fd, pos, whence, junk) => Seek(s, fd, pos, whence, junk).0
    case OpSync => WriteChanges(s)
    case OpDelete(name) => Delete(s, name).0
  }

  predicate RunAllowed(s: State, ops: seq<Op>)
    requires Sane(s)
    decreases |ops|
  {
    ops == [] || (Allowed(s, ops[0]) && RunAllowed(Step(s, ops[0]), ops[1..]))
  }

  function Run(s: State, ops: seq<Op>): (r: State)
    requires Sane(s) && RunAllowed(s, ops)
    ensures Sane(r)
    decreases |ops|
  {
    if ops == [] then s else Run(Step(s, ops[0]), ops[1..])
  }

  // ---- the ledger ------------------------------------------------------------------------

  /** For each block ever linked into a file: the slot it belongs to and when it was linked. */
  datatype Ledger = Ledger(owner: map<u16, int>, rank: map<u16, nat>, clock: nat)

  ghost predicate BlocksOk(root: Root, bm: Sector, g: Ledger) {
    && g.owner.Keys == g.rank.Keys
    && forall b :: b in g.owner ==>
         IsData(root, b) && b < 8 * SECTOR && Marked(bm, b) && g.rank[b] < g.clock
  }

  ghost predicate LinksOk(disk: seq<Sector>, g: Ledger) {
    && g.owner.Keys == g.rank.Keys
    && (forall b :: b in g.owner ==> b < |disk|)
    && forall b {:trigger Next(disk[b])} :: b in g.owner && Next(disk[b]) != 0 ==>
         && Next(disk[b]) in g.owner && g.owner[Next(disk[b])] == g.owner[b]
         && g.rank[b] < g.rank[Next(disk[b])]
  }

  ghost predicate Belongs(g: Ledger, b: u16, slot: int) {
    b != 0 ==> b in g.owner && g.owner[b] == slot
  }

  ghost predicate HeadsOk(files: seq<FileEntry>, g: Ledger) {
    forall i :: 0 <= i < |files| ==> Belongs(g, files[i].block, i)
  }

  ghost predicate FdOk(e: Fd, g: Ledger) {
    e.FileFd? ==> Belongs(g, e.cur, e.file) && Belongs(g, e.prev, e.file)
  }

  ghost predicate CursorsOk(fds: seq<Fd>, g: Ledger) {
    forall d :: 0 <= d < |fds| ==> FdOk(fds[d], g)
  }

  ghost predicate Tracked(s: State, g: Ledger) {
    && Sane(s)
    && BlocksOk(s.root, s.bitmap, g)
    && LinksOk(s.disk, g)
    && HeadsOk(s.files, g)
    && CursorsOk(s.fds, g)
  }

  // ---- each step keeps a ledger ----------------------------------------------------------------

  /** The ledger after a fresh block `b` is linked into `slot`. */
  ghost function Enter(g: Ledger, b: u16, slot: int): Ledger {
    Ledger(g.owner[b := slot], g.rank[b := g.clock], g.clock + 1)
  }

  ghost predicate Extends(g: Ledger, g': Ledger) {
    forall b :: b in g.owner ==> b in g'.owner && g'.owner[b] == g.owner[b]
  }

  lemma EnterBlocks(root: Root, bm: Sector, g: Ledger, b: u16, slot: int)
    requires BlocksOk(root, bm, g) && IsData(root, b) && b < 8 * SECTOR && !Marked(bm, b)
    ensures b !in g.owner
    ensures BlocksOk(root, Mark(bm, b), Enter(g, b, slot))
  {
    MarkMarks(bm, b, b);
    forall x | x in g.owner ensures Marked(Mark(bm, b), x) { MarkMarks(bm, b, x); }
  }

  /** A blank block may be linked from any block of the same file: it is the youngest of all. */
  lemma EnterLinks(root: Root, bm: Sector, disk: seq<Sector>, g: Ledger, b: u16, slot: int, prev: u16)
    requires BlocksOk(root, bm, g) && LinksOk(disk, g) && 0 < b < |disk| && b !in g.owner
    requires Belongs(g, prev, slot)
    ensures var d := disk[b := BlankBlock()];
            && LinksOk(d, Enter(g, b, slot))
            && (prev != 0 ==> LinksOk(d[prev := SetNext(d[prev], b)], Enter(g, b, slot)))
  {
  }

  lemma EnterCursors(s: State, g: Ledger, b: u16, slot: int)
    requires HeadsOk(s.files, g) && CursorsOk(s.fds, g) && b !in g.owner
    ensures HeadsOk(s.files, Enter(g, b, slot)) && CursorsOk(s.fds, Enter(g, b, slot))
  {
    assert forall x, i :: Belongs(g, x, i) ==> Belongs(Enter(g, b, slot), x, i);
  }

  lemma MarkKeeps(s: State, g: Ledger, b: u16)
    requires Tracked(s, g) && b < 8 * SECTOR
    ensures BlocksOk(s.root, Mark(s.bitmap, b), g)
  {
    forall x | x in g.owner ensures Marked(Mark(s.bitmap, b), x) { MarkMarks(s.bitmap, b, x); }
  }

  lemma WriteChangesKeeps(s: State, g: Ledger)
    requires Tracked(s, g)
    ensures Tracked(WriteChanges(s), g)
  {
    assert forall b :: b in g.owner ==> WriteChanges(s).disk[b] == s.disk[b];
  }

  lemma CloseKeeps(s: State, g: Ledger, fd: int)
    requires Tracked(s, g)
    ensures Tracked(Close(s, fd).0, g)
  {
    WriteChangesKeeps(s, g);
  }

  lemma OpenKeeps(s: State, g: Ledger, name: CString, flags: u16, junk: u16) returns (g': Ledger)
    requires Tracked(s, g)
    ensures Tracked(Open(s, name, flags, junk).0, g')
  {
    g' := g;
    if FindFile(s, name) == -1 && Creat(flags) { g' := CreateKeeps(s, g, name, flags); }
  }

  lemma CreateKeeps(s: State, g: Ledger, name: CString, flags: u16) returns (g': Ledger)
    requires Tracked(s, g)
    ensures Tracked(Create(s, name, flags).0, g')
  {
    var (s1, b) := AllocBlock(s);
    var i := FreeSlot(s.files, 0, s.root.maxFiles);
    g' := g;
    if b != 0 {
      MarkKeeps(s, g, b);
      if s.root.fileCount < s.root.maxFiles && i < s.root.maxFiles {
        g' := AddFileKeeps(s, g, i, b, name, flags);
        WriteChangesKeeps(AddFile(s1, i, b, name, flags), g');
      }
    }
  }

  lemma AddFileKeeps(s: State, g: Ledger, i: int, b: u16, name: CString, flags: u16) returns (g': Ledger)
    requires Tracked(s, g) && IsData(s.root, b) && !Marked(s.bitmap, b)
    requires 0 <= i < MAX_FILES && s.root.fileCount < s.root.maxFiles
    ensures Tracked(AddFile(s.(bitmap := Mark(s.bitmap, b)), i, b, name, flags), g')
  {
    g' := Enter(g, b, i);
    EnterBlocks(s.root, s.bitmap, g, b, i);
    EnterLinks(s.root, s.bitmap, s.disk, g, b, i, 0);
    EnterCursors(s, g, b, i);
  }

  lemma {:induction false} ReadLoopKeeps(s: State, g: Ledger, e: Fd, count: nat)
    requires Tracked(s, g) && FdSane(e, s.root.total) && e.FileFd? && FdOk(e, g)
    ensures FdOk(ReadLoop(s, e, count).0, g)
    decreases count
  {
    if count == 0 || !AtBlock(s, e) || e.pos >= s.files[e.file].size {
    } else {
      var n := ReadSpan(s, e, count);
      ReadLoopKeeps(s, g, ReadAdvance(s, e, n), count - n);
    }
  }

  lemma ReadKeeps(s: State, g: Ledger, fd: int, count: u16)
    requires Tracked(s, g)
    ensures Tracked(Read(s, fd, count).0, g)
  {
    if IsFileFd(s, fd) { ReadLoopKeeps(s, g, s.fds[fd], count); }
  }

  lemma {:induction false} SeekWalkKeeps(s: State, g: Ledger, slot: int, b: u16, off: u16)
    requires Tracked(s, g) && Belongs(g, b, slot)
    ensures Belongs(g, SeekWalk(s, b, off).0, slot)
    decreases off
  {
    if off >= PAYLOAD && 0 < b < s.root.total {
      SeekWalkKeeps(s, g, slot, Next(s.disk[b]), off - PAYLOAD);
    }
  }

  lemma SeekKeeps(s: State, g: Ledger, fd: int, pos: u16, whence: int, junk: u16)
    requires Tracked(s, g)
    ensures Tracked(Seek(s, fd, pos, whence, junk).0, g)
  {
    if IsFileFd(s, fd) {
      var e := s.fds[fd];
      SeekWalkKeeps(s, g, e.file, s.files[e.file].block, SeekTarget(s, e, pos, whence, junk));
    }
  }

  lemma CursorMoved(fds: seq<Fd>, g: Ledger, fd: int, b: u16)
    requires CursorsOk(fds, g) && 0 <= fd < |fds| && fds[fd].FileFd? && Belongs(g, b, fds[fd].file)
    ensures CursorsOk(fds[fd := fds[fd].(cur := b, off := 0)], g)
  {
  }

  lemma HeadMoved(files: seq<FileEntry>, g: Ledger, i: int, b: u16)
    requires HeadsOk(files, g) && 0 <= i < |files| && Belongs(g, b, i)
    ensures HeadsOk(files[i := files[i].(block := b)], g)
  {
  }

  lemma EnterExtends(g: Ledger, b: u16, slot: int)
    requires b !in g.owner
    ensures Extends(g, Enter(g, b, slot)) && Belongs(Enter(g, b, slot), b, slot)
  {
  }

  lemma LinkBlockKeeps(s: State, g: Ledger, fd: int, b: u16) returns (g': Ledger)
    requires Tracked(s, g) && IsFileFd(s, fd) && IsData(s.root, b) && !Marked(s.bitmap, b)
    ensures Tracked(LinkBlock(s.(bitmap := Mark(s.bitmap, b)), fd, b), g') && Extends(g, g')
  {
    var e := s.fds[fd];
    g' := Enter(g, b, e.file);
    EnterBlocks(s.root, s.bitmap, g, b, e.file);
    EnterExtends(g, b, e.file);
    assert Belongs(g, e.prev, e.file);
    EnterLinks(s.root, s.bitmap, s.disk, g, b, e.file, e.prev);
    EnterCursors(s, g, b, e.file);
    CursorMoved(s.fds, g', fd, b);
    HeadMoved(s.files, g', e.file, b);
  }

  lemma EnsureBlockKeeps(s: State, g: Ledger, fd: int) returns (g': Ledger)
    requires Tracked(s, g) && IsFileFd(s, fd)
    ensures Tracked(EnsureBlock(s, fd).0, g') && Extends(g, g')
  {
    var b := AllocBlock(s).1;
    g' := g;
    if !AtBlock(s, s.fds[fd]) && b != 0 { g' := LinkBlockKeeps(s, g, fd, b); }
  }

  lemma PutChunkKeeps(s: State, g: Ledger, fd: int, chunk: seq<byte>)
    requires Tracked(s, g) && IsFileFd(s, fd) && AtBlock(s, s.fds[fd])
    requires s.fds[fd].off + |chunk| <= PAYLOAD
    ensures Tracked(PutChunk(s, fd, chunk), g)
  {
  }

  lemma {:induction false} WriteKeeps(s: State, g: Ledger, fd: int, data: seq<byte>) returns (g': Ledger)
    requires Tracked(s, g) && IsFileFd(s, fd)
    ensures Tracked(WriteLoop(s, fd, data).0, g')
    decreases |data|
  {
    if data == [] {
      g' := g;
    } else {
      g' := EnsureBlockKeeps(s, g, fd);
      var (s1, ok) := EnsureBlock(s, fd);
      if ok {
        var n := WriteSpan(s1.fds[fd], data);
        PutChunkKeeps(s1, g', fd, data[..n]);
        g' := WriteKeeps(PutChunk(s1, fd, data[..n]), g', fd, data[n..]);
      }
    }
  }

  /** Dropping a slot from the ledger, when its file goes. */
  ghost function Forget(g: Ledger, slot: int): Ledger {
    Ledger(map b | b in g.owner && g.owner[b] != slot :: g.owner[b],
           map b | b in g.owner && g.owner[b] != slot && b in g.rank :: g.rank[b], g.clock)
  }

  /** The walk of `mfs_delete` touches blocks of the deleted file alone. */
  lemma {:induction false} EraseKeeps(
      root: Root, disk: seq<Sector>, bm: Sector, g: Ledger, g0: Ledger, slot: int, b: u16)
    requires root.total <= |disk| && root.total <= 8 * SECTOR
    requires forall x :: x in g0.owner && g0.owner[x] == slot ==> x !in g.owner
    requires BlocksOk(root, bm, g) && LinksOk(disk, g)
    requires g0.owner.Keys == g0.rank.Keys && Belongs(g0, b, slot)
    requires forall x :: x in g0.owner && g0.owner[x] == slot ==>
               x < |disk| && Belongs(g0, Next(disk[x]), slot)
    ensures var r := EraseWalk(disk, bm, root.total, b); BlocksOk(root, r.1, g) && LinksOk(r.0, g)
    decreases Linked(disk, root.total), if b == 0 then 0 else 1
  {
    if b != 0 && b < root.total {
      LinkedZeroed(disk, b, root.total);
      forall x | x in g.owner ensures Marked(Unmark(bm, b), x) { UnmarkClears(bm, b, x); }
      EraseKeeps(root, disk[b := ZeroSector()], Unmark(bm, b), g, g0, slot, Next(disk[b]));
    }
  }

  lemma ForgetKeeps(s: State, g: Ledger, i: int)
    requires Tracked(s, g) && 0 <= i < MAX_FILES && Closed(s, i)
    ensures BlocksOk(s.root, s.bitmap, Forget(g, i)) && LinksOk(s.disk, Forget(g, i))
    ensures HeadsOk(s.files[i := ZeroEntry()], Forget(g, i)) && CursorsOk(s.fds, Forget(g, i))
  {
  }

  lemma DeleteKeeps(s: State, g: Ledger, name: CString) returns (g': Ledger)
    requires Tracked(s, g) && Allowed(s, OpDelete(name))
    ensures Tracked(Delete(s, name).0, g')
  {
    var i := FindFile(s, name);
    g' := g;
    if i != -1 {
      g' := Forget(g, i);
      ForgetKeeps(s, g, i);
      EraseKeeps(s.root, s.disk, s.bitmap, g', g, i, s.files[i].block);
      WriteChangesKeeps(RemoveFile(s, i), g');
    }
  }

  lemma StepKeeps(s: State, g: Ledger, op: Op) returns (g': Ledger)
    requires Tracked(s, g) && Allowed(s, op)
    ensures Tracked(Step(s, op), g')
  {
    g' := g;
    match op
    case OpOpen(name, flags, junk) => g' := OpenKeeps(s, g, name, flags, junk);
    case OpClose(fd) => CloseKeeps(s, g, fd);
    case OpRead(fd, count) => ReadKeeps(s, g, fd, count);
    case OpWrite(fd, data) =>
      if IsFileFd(s, fd) && s.fds[fd].Writable() { g' := WriteKeeps(s, g, fd, data); }
    case OpSeek(fd, pos, whence, junk) => SeekKeeps(s, g, fd, pos, whence, junk);
    case OpSync => WriteChangesKeeps(s, g);
    case OpDelete(name) => g' := DeleteKeeps(s, g, name);
  }

  lemma {:induction false} RunKeeps(s: State, g: Ledger, ops: seq<Op>) returns (g': Ledger)
    requires Tracked(s, g) && RunAllowed(s, ops)
    ensures Tracked(Run(s, ops), g')
    decreases |ops|
  {
    g' := g;
    if ops != [] {
      g' := StepKeeps(s, g, ops[0]);
      g' := RunKeeps(Step(s, ops[0]), g', ops[1..]);
    }
  }

  // ---- ledgers and chains ----------------------------------------------------------------------

  lemma ConsChain(disk: seq<Sector>, b: u16, rest: seq<u16>)
    requires 0 < b < |disk| && IsChain(disk, Next(disk[b]), rest)
    ensures IsChain(disk, b, [b] + rest)
  {
    var c := [b] + rest;
    assert forall j :: 1 <= j < |c| ==> c[j] == rest[j - 1] && After(c, j) == After(rest, j - 1);
  }

  ghost predicate AllBelong(g: Ledger, c: seq<u16>, slot: int) {
    forall j :: 0 <= j < |c| ==> c[j] != 0 && Belongs(g, c[j], slot)
  }

  lemma {:induction false} ChainFrom(disk: seq<Sector>, g: Ledger, b: u16, slot: int) returns (c: seq<u16>)
    requires LinksOk(disk, g) && Belongs(g, b, slot)
    requires forall x :: x in g.rank ==> g.rank[x] < g.clock
    ensures IsChain(disk, b, c) && AllBelong(g, c, slot)
    decreases if b == 0 then 0 else 1 + g.clock - g.rank[b]
  {
    if b == 0 {
      c := [];
    } else {
      var rest := ChainFrom(disk, g, Next(disk[b]), slot);
      ConsChain(disk, b, rest);
      c := [b] + rest;
    }
  }

  /** Along a chain the ledger's dates strictly increase, so no block comes twice. */
  lemma {:induction false} ChainRises(disk: seq<Sector>, g: Ledger, b: u16, c: seq<u16>, slot: int, i: nat, j: nat)
    requires LinksOk(disk, g) && IsChain(disk, b, c) && AllBelong(g, c, slot) && i < j < |c|
    ensures g.rank[c[i]] < g.rank[c[j]]
  {
    assert Next(disk[c[j - 1]]) == After(c, j - 1) == c[j];
    if i < j - 1 { ChainRises(disk, g, b, c, slot, i, j - 1); }
  }

  lemma ChainNoDup(disk: seq<Sector>, g: Ledger, b: u16, c: seq<u16>, slot: int)
    requires LinksOk(disk, g) && IsChain(disk, b, c) && AllBelong(g, c, slot)
    ensures NoDup(c)
  {
    forall i, j | 0 <= i < j < |c| ensures c[i] != c[j] { ChainRises(disk, g, b, c, slot, i, j); }
  }

  /** A ledger yields sound chains. */
  lemma LedgerSound(s: State, g: Ledger)
    requires Tracked(s, g)
    ensures Sound(s)
  {
    var cs := LedgerChains(s, g, MAX_FILES);
    assert forall i, j :: 0 <= i < j < MAX_FILES ==> Disjoint(cs[i], cs[j]) by {
      forall i, j, x, y | 0 <= i < j < MAX_FILES && 0 <= x < |cs[i]| && 0 <= y < |cs[j]|
        ensures cs[i][x] != cs[j][y]
      {
        assert Belongs(g, cs[i][x], i) && Belongs(g, cs[j][y], j);
      }
    }
    assert SoundWith(s, cs);
  }

  ghost predicate SlotChain(s: State, g: Ledger, i: int, c: seq<u16>)
    requires 0 <= i < |s.files|
  {
    SlotSound(s, i, c) && AllBelong(g, c, i)
  }

  lemma {:induction false} LedgerChains(s: State, g: Ledger, n: nat) returns (cs: seq<seq<u16>>)
    requires Tracked(s, g) && n <= MAX_FILES
    ensures |cs| == n && forall i :: 0 <= i < n ==> SlotChain(s, g, i, cs[i])
  {
    if n == 0 {
      cs := [];
    } else {
      cs := LedgerChains(s, g, n - 1);
      var c := ChainFrom(s.disk, g, s.files[n - 1].block, n - 1);
      ChainNoDup(s.disk, g, s.files[n - 1].block, c, n - 1);
      assert SlotChain(s, g, n - 1, c);
      cs := cs + [c];
    }
  }

  // A ledger for given sound chains: slot, position in the chain, and a clock past every position.

  ghost predicate Holds(cs: Chains, b: u16, i: int, k: int) {
    0 <= i < MAX_FILES && 0 <= k < |cs[i]| && cs[i][k] == b
  }

  ghost function Place(cs: Chains, b: u16): (r: (int, int))
    requires exists i, k :: Holds(cs, b, i, k)
    ensures Holds(cs, b, r.0, r.1)
  {
    var i, k :| Holds(cs, b, i, k);
    (i, k)
  }

  function Longest(cs: seq<seq<u16>>): (n: nat)
    ensures forall i :: 0 <= i < |cs| ==> |cs[i]| <= n
  {
    if cs == [] then 0 else Max(|cs[0]|, Longest(cs[1..]))
  }

  ghost function LedgerOf(cs: Chains): Ledger {
    Ledger(
      map b: u16 | 0 <= b < 0x1_0000 && (exists i, k :: Holds(cs, b, i, k)) :: Place(cs, b).0,
      map b: u16 | 0 <= b < 0x1_0000 && (exists i, k :: Holds(cs, b, i, k)) :: Place(cs, b).1 as nat,
      Longest(cs))
  }

  /** Sound chains leave each block one place. */
  lemma PlaceUnique(s: State, cs: Chains, b: u16, i: int, k: int)
    requires SoundWith(s, cs) && Holds(cs, b, i, k)
    ensures Place(cs, b) == (i, k)
    ensures b in LedgerOf(cs).owner && LedgerOf(cs).owner[b] == i && LedgerOf(cs).rank[b] == k
  {
    var (i', k') := Place(cs, b);
    assert i == i' && SlotSound(s, i, cs[i]);
  }

  lemma LedgerBlock(s: State, cs: Chains, b: u16)
    requires SoundWith(s, cs) && b in LedgerOf(cs).owner
    ensures IsData(s.root, b) && Marked(s.bitmap, b) && LedgerOf(cs).rank[b] < LedgerOf(cs).clock
    ensures var g, n := LedgerOf(cs), Next(s.disk[b]);
            n != 0 ==> n in g.owner && g.owner[n] == g.owner[b] && g.rank[b] < g.rank[n]
  {
    var (i, k) := Place(cs, b);
    var c := cs[i];
    assert SlotSound(s, i, c);
    assert c[k] == b && Next(s.disk[b]) == After(c, k);
    if k + 1 < |c| { PlaceUnique(s, cs, c[k + 1], i, k + 1); }
  }

  lemma LedgerLinks(s: State, cs: Chains)
    requires SoundWith(s, cs)
    ensures LinksOk(s.disk, LedgerOf(cs)) && BlocksOk(s.root, s.bitmap, LedgerOf(cs))
  {
    var g := LedgerOf(cs);
    assert g.owner.Keys == g.rank.Keys;
    forall b | b in g.owner
      ensures IsData(s.root, b) && Marked(s.bitmap, b) && g.rank[b] < g.clock
      ensures var n := Next(s.disk[b]);
              n != 0 ==> n in g.owner && g.owner[n] == g.owner[b] && g.rank[b] < g.rank[n]
    {
      LedgerBlock(s, cs, b);
    }
  }

  lemma SoundLedger(s: State, cs: Chains)
    requires SoundWith(s, cs)
    requires forall d :: 0 <= d < FD_MAX ==> !s.fds[d].FileFd?
    ensures Tracked(s, LedgerOf(cs))
  {
    LedgerLinks(s, cs);
    forall i | 0 <= i < MAX_FILES ensures Belongs(LedgerOf(cs), s.files[i].block, i) {
      assert SlotSound(s, i, cs[i]);
      if s.files[i].block != 0 { PlaceUnique(s, cs, s.files[i].block, i, 0); }
    }
  }

  /**
   Main result: from any sound volume with no file open yet, every run leaves every chain acyclic,
   in the data region, marked in the bitmap and disjoint from all others.
   */
  lemma RunsStaySound(s: State, ops: seq<Op>)
    requires Sound(s) && RunAllowed(s, ops)
    requires forall d :: 0 <= d < FD_MAX ==> !s.fds[d].FileFd?
    ensures Sound(Run(s, ops))
  {
    var cs: Chains :| SoundWith(s, cs);
    SoundLedger(s, cs);
    var g := RunKeeps(s, LedgerOf(cs), ops);
    LedgerSound(Run(s, ops), g);
  }
}
