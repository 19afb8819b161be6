/**
 The filesystem as a program wants to see it: named byte strings, and descriptors with a position. No
 blocks, chains or cursors; of the disk only the number of free blocks is left.
 */
module MfsVolume {
  import opened Machine
  import opened MfsFormat
  import opened MfsState
  import opened MfsContents
  import opened MfsReads
  import opened MfsStructure

  datatype File = File(name: CString, bytes: seq<byte>)

  /** What a descriptor may still be used for: writing, reading, or nothing until the next seek. */
  datatype Place = Ready | Placed | Lost

  datatype Handle = NoHandle | Terminal | Handle(file: int, pos: nat, mode: FdMode, place: Place)

  /** Files in the order of their creation; at most `max` of them. */
  datatype Volume = Volume(files: seq<File>, fds: seq<Handle>, free: nat, max: nat)

  /** The map from names to contents. */
  function Contents(v: Volume): map<CString, seq<byte>> {
    map f <- v.files :: f.name := v.files[Index(v.files, f.name)].bytes
  }

  function Index(files: seq<File>, name: CString): (i: int)
    ensures -1 <= i < |files| && (i != -1 ==> files[i].name == name)
    ensures forall j :: 0 <= j < (if i == -1 then |files| else i) ==> files[j].name != name
    ensures (exists f :: f in files && f.name == name) ==> i != -1
    decreases |files|
  {
    if files == [] then -1
    else if files[|files| - 1].name == name && Index(files[..|files| - 1], name) == -1 then |files| - 1
    else Index(files[..|files| - 1], name)
  }

  function FirstClosed(fds: seq<Handle>, i: nat): (d: int)
    ensures d == -1 || i <= d < |fds|
    decreases |fds| - i
  {
    if i >= |fds| then -1 else if fds[i] == NoHandle then i else FirstClosed(fds, i + 1)
  }

  /** Blocks a file of `n` bytes takes up: one even when it is empty. */
  function Blocks(n: nat): nat { Max(1, (n + PAYLOAD - 1) / PAYLOAD) }

  function Capacity(f: File): nat { PAYLOAD * Blocks(|f.bytes|) }

  predicate IsHandle(v: Volume, fd: int) {
    0 <= fd < |v.fds| && v.fds[fd].Handle? && 0 <= v.fds[fd].file < |v.files|
  }

  // ---- the operations -------------------------------------------------------------------------------

  datatype Outcome = Number(n: int) | Given(r: ReadResult)

  /** O_CREAT and O_APPEND among the flags; the two low bits are the access. */
  predicate Makes(flags: u16) { flags / 0x200 % 2 == 1 }

  predicate AtEnd(flags: u16) { flags / 0x08 % 2 == 1 }

  function NewHandle(v: Volume, i: int, flags: u16, junk: u16): Handle
    requires 0 <= i < |v.files|
  {
    var acc := flags % 4;
    var pos := if acc == 3 then junk else if acc != 0 && AtEnd(flags) then |v.files[i].bytes| else 0;
    var mode := if acc == 0 then ReadOnly else if acc == 1 then WriteOnly else if acc == 2 then ReadWrite else NoAccess;
    Handle(i, pos, mode, if pos == 0 then Ready else Lost)
  }

  /** The volume with room made for a new file, and its index; a full table costs a block. */
  function Make(v: Volume, name: CString): (r: (Volume, int))
    ensures -1 <= r.1 < |r.0.files|
  {
    if v.free == 0 then (v, -1)
    else if |v.files| >= v.max then (v.(free := v.free - 1), -1)
    else (v.(files := v.files + [File(name, [])], free := v.free - 1), |v.files|)
  }

  function Attach(v: Volume, i: int, flags: u16, junk: u16): (Volume, Outcome)
    requires -1 <= i < |v.files|
  {
    var fd := FirstClosed(v.fds, 3);
    if i == -1 || fd == -1 then (v, Number(-1)) else (v.(fds := v.fds[fd := NewHandle(v, i, flags, junk)]), Number(fd))
  }

  function OpenFile(v: Volume, name: CString, flags: u16, junk: u16): (Volume, Outcome) {
    var found := Index(v.files, name);
    if found == -1 && Makes(flags) then var (w, i) := Make(v, name); Attach(w, i, flags, junk)
    else Attach(v, found, flags, junk)
  }

  function CloseHandle(v: Volume, fd: int): (Volume, Outcome) {
    if fd < 3 || fd >= |v.fds| then (v, Number(1)) else (v.(fds := v.fds[fd := NoHandle]), Number(0))
  }

  function ReadFile(v: Volume, fd: int, count: nat): (Volume, Outcome) {
    if !IsHandle(v, fd) || v.fds[fd].mode !in {ReadOnly, ReadWrite} then (v, Given(ReadFailed))
    else
      var h := v.fds[fd];
      var bytes := Slice(v.files[h.file].bytes, h.pos, count);
      (v.(fds := v.fds[fd := h.(pos := h.pos + |bytes|, place := Placed)]), Given(ReadBytes(bytes)))
  }

  /** Descriptors waiting at the end of a file that grew by a block have lost their place. */
  function Passed(h: Handle, i: int, was: File, now: File): Handle {
    var grew := Blocks(|now.bytes|) > Blocks(|was.bytes|);
    if h.Handle? && h.file == i && h.pos == Capacity(was) && grew then h.(place := Lost) else h
  }

  /** As many bytes as there is room for; success if and only if that is all of them. */
  function WriteFile(v: Volume, fd: int, data: seq<byte>): (Volume, Outcome) {
    if !IsHandle(v, fd) || v.fds[fd].mode !in {WriteOnly, ReadWrite} then (v, Number(-1))
    else
      var h := v.fds[fd];
      var f := v.files[h.file];
      var room := Max(PAYLOAD * (Blocks(|f.bytes|) + v.free) - h.pos, 0);
      var n := Min(|data|, room);
      if h.pos > |f.bytes| then (v, Number(-1))
      else
        var g := File(f.name, Overlay(f.bytes, h.pos, data[..n]));
        var fds := seq(|v.fds|, d requires 0 <= d < |v.fds| => Passed(v.fds[d], h.file, f, g));
        (Volume(v.files[h.file := g], fds[fd := h.(pos := h.pos + n, place := Ready)],
                Max(v.free - (Blocks(|g.bytes|) - Blocks(|f.bytes|)), 0), v.max),
         Number(if n == |data| && |data| < 0x1_0000 then Int16(|data|) else -1))
  }

  /** `whence` 1 is from the start, 2 from the position, 3 from the end; the last two rarely do what they say. */
  function SeekFile(v: Volume, fd: int, pos: u16, whence: int): (Volume, Outcome) {
    if !IsHandle(v, fd) then (v, Number(-1))
    else
      var h := v.fds[fd];
      var f := v.files[h.file];
      var same := whence == 1 || (whence == 2 && h.pos == 0) || (whence == 3 && f.bytes == []);
      var right := pos <= Capacity(f) && same;
      (v.(fds := v.fds[fd := h.(pos := pos, place := if right then Placed else Lost)]), Number(Int16(pos)))
  }

  function DeleteFile(v: Volume, name: CString): (Volume, Outcome) {
    var i := Index(v.files, name);
    if i == -1 then (v, Number(-1))
    else (v.(files := v.files[..|v.files| - 1], free := v.free + Blocks(|v.files[i].bytes|)), Number(0))
  }

  function Do(v: Volume, op: Op): (Volume, Outcome) {
    match op
    case OpOpen(name, flags, junk) => OpenFile(v, name, flags, junk)
    case OpClose(fd) => CloseHandle(v, fd)
    case OpRead(fd, count) => ReadFile(v, fd, count)
    case OpWrite(fd, data) => WriteFile(v, fd, data)
    case OpSeek(fd, pos, whence, _) => SeekFile(v, fd, pos, whence)
    case OpSync => (v, Number(0))
    case OpDelete(name) => DeleteFile(v, name)
  }

  // ---- what a program must keep to ---------------------------------------------------------------------

  /** A position inside the file's blocks, or at their end with the last block still known. */
  predicate MayWrite(h: Handle, f: File) {
    h.Handle? && h.pos <= |f.bytes| && (h.place == Ready || (h.place == Placed && h.pos < Capacity(f)))
  }

  /**
   All of this can be told from the operations so far: new names have at most 11 characters, a lost
   descriptor is not read, a write is made where it may be and stays below 65536, and only the newest
   file is deleted, while it is closed.
   */
  predicate Disciplined(v: Volume, op: Op) {
    match op
    case OpOpen(name, flags, _) => Index(v.files, name) == -1 && Makes(flags) ==> |name| <= 11
    case OpRead(fd, _) => IsHandle(v, fd) && v.fds[fd].mode in {ReadOnly, ReadWrite} ==> v.fds[fd].place != Lost
    case OpWrite(fd, data) =>
      && |data| < 0x1_0000
      && (IsHandle(v, fd) && v.fds[fd].mode in {WriteOnly, ReadWrite} ==>
            MayWrite(v.fds[fd], v.files[v.fds[fd].file]) && v.fds[fd].pos + |data| < 0x1_0000)
    case OpDelete(name) =>
      var i := Index(v.files, name);
      i != -1 ==> i == |v.files| - 1 && forall d :: 0 <= d < |v.fds| && v.fds[d].Handle? ==> v.fds[d].file != i
    case _ => true
  }

  // ---- runs ------------------------------------------------------------------------------------------------

  /** An operation, or an orderly restart: a sync and a mount. */
  datatype Event = Ask(op: Op) | Restart

  function BootHandles(): (hs: seq<Handle>)
    ensures |hs| == FD_MAX
  {
    seq(FD_MAX, d => if d < 3 then Terminal else NoHandle)
  }

  function DoEvent(v: Volume, e: Event): (Volume, Outcome) {
    match e
    case Ask(op) => Do(v, op)
    case Restart => (v.(fds := BootHandles()), Number(0))
  }

  predicate AllDisciplined(v: Volume, es: seq<Event>)
    decreases |es|
  {
    es == [] || ((es[0].Ask? ==> Disciplined(v, es[0].op)) && AllDisciplined(DoEvent(v, es[0]).0, es[1..]))
  }

  /** The volume after a run, and what every operation returned. */
  function DoAll(v: Volume, es: seq<Event>): (Volume, seq<Outcome>)
    decreases |es|
  {
    if es == [] then (v, [])
    else
      var (w, x) := DoEvent(v, es[0]);
      var (u, xs) := DoAll(w, es[1..]);
      (u, [x] + xs)
  }
}
