/** What the disk controller transfers: every byte of memory and of the image, for any number of sectors. */
module Z80Disk {
  import opened Machine
  import opened Z80
  import opened Z80Exec

  /** How far `a` lies behind `b`, going round. */
  function Behind(a: u16, b: u16): u16 { Wrap(a - b) }

  predicate InRam(m: Mach, a: u16) { m.rom <= a < MEM_SIZE }

  // ---- from the image to memory --------------------------------------------------------------------------------

  /** A byte of RAM that the sector's bytes `i` and up reach, and the image has. */
  predicate Reached(m: Mach, dma: u16, offset: nat, i: nat, a: u16) {
    InRam(m, a) && i <= Behind(a, dma) < FDC_SECTOR && offset + Behind(a, dma) < |m.fdc.disk|
  }

  /** One sector from byte `i` on: what each byte of memory becomes. */
  lemma {:induction false} SectorRead(m: Mach, dma: u16, offset: nat, i: nat, a: u16)
    requires i <= FDC_SECTOR && a < MEM_SIZE
    ensures var r := ReadSector(m, dma, offset, i);
            && r == m.(mem := r.mem)
            && r.mem[a] == if Reached(m, dma, offset, i, a) then m.fdc.disk[offset + Behind(a, dma)] else m.mem[a]
    decreases FDC_SECTOR - i
  {
    if i < FDC_SECTOR && offset + i < |m.fdc.disk| {
      var m1 := SetMem8(m, Wrap(dma + i), m.fdc.disk[offset + i]);
      SectorRead(m1, dma, offset, i + 1, a);
      BehindIs(a, dma, i);
    }
  }

  lemma BehindIs(a: u16, b: u16, k: nat)
    requires k < 0x1_0000
    ensures Wrap(b + k) == a <==> Behind(a, b) == k
  {
  }

  /** Where byte `k` of a transfer lies on the image: sectors are counted in 16 bits. */
  function Offset(lba: u16, k: nat): nat { FDC_SECTOR * Wrap(lba + k / FDC_SECTOR) + k % FDC_SECTOR }

  lemma NextSector(lba: u16, dma: u16, k: nat)
    requires k >= FDC_SECTOR
    ensures Wrap(Wrap(dma + FDC_SECTOR) + (k - FDC_SECTOR)) == Wrap(dma + k)
    ensures Offset(Wrap(lba + 1), k - FDC_SECTOR) == Offset(lba, k)
  {
    Rewrap(dma + FDC_SECTOR, k - FDC_SECTOR);
    assert (k - FDC_SECTOR) / FDC_SECTOR == k / FDC_SECTOR - 1 && (k - FDC_SECTOR) % FDC_SECTOR == k % FDC_SECTOR;
    Rewrap(lba + 1, k / FDC_SECTOR - 1);
  }

  lemma Rewrap(a: int, b: int)
    ensures Wrap(Wrap(a) + b) == Wrap(a + b)
  {
  }

  lemma OneSector(m: Mach, lba: u16, dma: u16, n: nat)
    requires n > 0
    ensures Transfer(m, 1, lba, dma, n)
         == Transfer(ReadSector(m, dma, lba * FDC_SECTOR, 0), 1, Wrap(lba + 1), Wrap(dma + FDC_SECTOR), n - 1)
  {
  }

  /** Bytes that no sector reaches stay. */
  lemma {:induction false} ReadElsewhere(m: Mach, lba: u16, dma: u16, n: nat, a: u16)
    requires a < MEM_SIZE && (Behind(a, dma) >= FDC_SECTOR * n || !InRam(m, a))
    ensures var t := Transfer(m, 1, lba, dma, n); t == m.(mem := t.mem) && t.mem[a] == m.mem[a]
    decreases n
  {
    if n > 0 {
      var m1 := ReadSector(m, dma, lba * FDC_SECTOR, 0);
      SectorRead(m, dma, lba * FDC_SECTOR, 0, a);
      if InRam(m, a) { FurtherBehind(a, dma); }
      ReadElsewhere(m1, Wrap(lba + 1), Wrap(dma + FDC_SECTOR), n - 1, a);
      OneSector(m, lba, dma, n);
    }
  }

  lemma FurtherBehind(a: u16, dma: u16)
    ensures var d := Behind(a, dma);
            Behind(a, Wrap(dma + FDC_SECTOR)) == if d >= FDC_SECTOR then d - FDC_SECTOR else d + 0x1_0000 - FDC_SECTOR
  {
  }

  lemma FirstOffset(lba: u16, k: nat)
    requires k < FDC_SECTOR
    ensures Offset(lba, k) == lba * FDC_SECTOR + k
  {
  }

  lemma FirstArrives(m: Mach, lba: u16, dma: u16, n: nat, k: nat, a: u16, m1: Mach)
    requires k < FDC_SECTOR && FDC_SECTOR * n <= k + 0x1_0000 && n > 0 && a == Wrap(dma + k) && InRam(m, a)
    requires lba * FDC_SECTOR + k < |m.fdc.disk| && m1 == ReadSector(m, dma, lba * FDC_SECTOR, 0)
    ensures Transfer(m1, 1, Wrap(lba + 1), Wrap(dma + FDC_SECTOR), n - 1).mem[a] == m.fdc.disk[lba * FDC_SECTOR + k]
  {
    BehindIs(a, dma, k);
    SectorRead(m, dma, lba * FDC_SECTOR, 0, a);
    FurtherBehind(a, dma);
    ReadElsewhere(m1, Wrap(lba + 1), Wrap(dma + FDC_SECTOR), n - 1, a);
  }

  /** Byte `k` of the transfer comes from `o` on the image and stays at `a` in RAM. */
  predicate Arriving(m: Mach, lba: u16, dma: u16, n: nat, k: nat, a: u16, o: nat) {
    && k < FDC_SECTOR * n <= k + 0x1_0000 && a == Wrap(dma + k) && InRam(m, a)
    && o == Offset(lba, k) && o < |m.fdc.disk|
  }

  lemma ArrivingNext(m: Mach, lba: u16, dma: u16, n: nat, k: nat, a: u16, o: nat, m1: Mach)
    requires Arriving(m, lba, dma, n, k, a, o) && k >= FDC_SECTOR && m1 == ReadSector(m, dma, lba * FDC_SECTOR, 0)
    ensures Fact(Arriving(m1, Wrap(lba + 1), Wrap(dma + FDC_SECTOR), n - 1, k - FDC_SECTOR, a, o))
    ensures m1.fdc.disk == m.fdc.disk
  {
    SectorRead(m, dma, lba * FDC_SECTOR, 0, a);
    NextSector(lba, dma, k);
  }

  /**
   Main result: a read of `n` sectors brings every byte of them that is on the image, lands in RAM and is not
   overwritten by a later one going round memory.
   */
  lemma {:induction false} ReadArrives(m: Mach, lba: u16, dma: u16, n: nat, k: nat, a: u16, o: nat)
    requires Fact(Arriving(m, lba, dma, n, k, a, o))
    ensures Transfer(m, 1, lba, dma, n).mem[a] == m.fdc.disk[o]
    decreases n
  {
    var m1 := ReadSector(m, dma, lba * FDC_SECTOR, 0);
    OneSector(m, lba, dma, n);
    if k < FDC_SECTOR {
      FirstOffset(lba, k);
      FirstArrives(m, lba, dma, n, k, a, m1);
    } else {
      ArrivingNext(m, lba, dma, n, k, a, o, m1);
      ReadArrives(m1, Wrap(lba + 1), Wrap(dma + FDC_SECTOR), n - 1, k - FDC_SECTOR, a, o);
    }
  }

  // ---- from memory to the image ------------------------------------------------------------------------------

  /** Byte `o` of the image after a sector is written at `offset`: the image grows if need be, with zeros. */
  lemma SectorWritten(m: Mach, dma: u16, offset: nat, o: nat)
    requires o < Max(|m.fdc.disk|, offset + FDC_SECTOR)
    ensures var r := WriteSector(m, dma, offset);
            && r == m.(fdc := m.fdc.(disk := r.fdc.disk)) && |r.fdc.disk| == Max(|m.fdc.disk|, offset + FDC_SECTOR)
            && r.fdc.disk[o] == if offset <= o < offset + FDC_SECTOR then MRead8(m.mem, Wrap(dma + (o - offset)))
                                else if o < |m.fdc.disk| then m.fdc.disk[o] else 0
  {
  }

  lemma OneSectorOut(m: Mach, lba: u16, dma: u16, n: nat)
    requires n > 0
    ensures Transfer(m, 2, lba, dma, n)
         == Transfer(WriteSector(m, dma, lba * FDC_SECTOR), 2, Wrap(lba + 1), Wrap(dma + FDC_SECTOR), n - 1)
  {
  }

  /** The sector `q` of the image is none of the `n` from `lba` on. */
  predicate Apart(lba: u16, n: nat, q: nat) { q >= 0x1_0000 || Behind(q, lba) >= n }

  lemma ApartNext(lba: u16, n: nat, q: nat)
    requires 0 < n <= 0x1_0000 && Apart(lba, n, q)
    ensures Apart(Wrap(lba + 1), n - 1, q) && q != lba
  {
  }

  lemma ApartBefore(lba: u16, n: nat)
    requires n < 0x1_0000
    ensures Apart(Wrap(lba + 1), n, lba)
  {
  }

  lemma OtherSector(lba: nat, q: nat, j: nat)
    requires q != lba && j < FDC_SECTOR
    ensures !(lba * FDC_SECTOR <= q * FDC_SECTOR + j < lba * FDC_SECTOR + FDC_SECTOR)
  {
  }

  /** Memory and byte `o` of the image are as they were. */
  ghost predicate Unwritten(t: Mach, m: Mach, o: nat)
    requires o < |m.fdc.disk|
  {
    Same(t.mem, m.mem) && o < |t.fdc.disk| && t.fdc.disk[o] == m.fdc.disk[o]
  }

  lemma SectorSpares(m: Mach, dma: u16, lba: nat, q: nat, j: nat)
    requires q != lba && j < FDC_SECTOR && q * FDC_SECTOR + j < |m.fdc.disk|
    ensures Unwritten(WriteSector(m, dma, lba * FDC_SECTOR), m, q * FDC_SECTOR + j)
  {
    OtherSector(lba, q, j);
    SectorWritten(m, dma, lba * FDC_SECTOR, q * FDC_SECTOR + j);
  }

  /** Bytes of sectors that are not written stay, and memory does. */
  lemma {:induction false} WriteElsewhere(m: Mach, lba: u16, dma: u16, n: nat, q: nat, j: nat)
    requires n <= 0x1_0000 && j < FDC_SECTOR && q * FDC_SECTOR + j < |m.fdc.disk| && Apart(lba, n, q)
    ensures Unwritten(Transfer(m, 2, lba, dma, n), m, q * FDC_SECTOR + j)
    decreases n
  {
    if n > 0 {
      var m1 := WriteSector(m, dma, lba * FDC_SECTOR);
      ApartNext(lba, n, q);
      SectorSpares(m, dma, lba, q, j);
      WriteElsewhere(m1, Wrap(lba + 1), Wrap(dma + FDC_SECTOR), n - 1, q, j);
      OneSectorOut(m, lba, dma, n);
    }
  }

  /** Byte `o` of the image is the byte of memory at `a`. */
  ghost predicate Written(t: Mach, m: Mach, o: nat, a: u16) {
    Same(t.mem, m.mem) && o < |t.fdc.disk| && t.fdc.disk[o] == MRead8(m.mem, a)
  }

  lemma FirstWritten(m: Mach, lba: u16, dma: u16, n: nat, k: nat, m1: Mach)
    requires k < FDC_SECTOR && 0 < n <= 0x1_0000 && m1 == WriteSector(m, dma, lba * FDC_SECTOR)
    ensures var t := Transfer(m1, 2, Wrap(lba + 1), Wrap(dma + FDC_SECTOR), n - 1);
            Written(t, m, lba * FDC_SECTOR + k, Wrap(dma + k))
  {
    SectorWritten(m, dma, lba * FDC_SECTOR, lba * FDC_SECTOR + k);
    ApartBefore(lba, n - 1);
    WriteElsewhere(m1, Wrap(lba + 1), Wrap(dma + FDC_SECTOR), n - 1, lba, k);
  }

  /** Byte `k` of the transfer goes from `a` in memory to `o` on the image. */
  predicate Going(lba: u16, dma: u16, n: nat, k: nat, a: u16, o: nat) {
    k < FDC_SECTOR * n && n <= 0x1_0000 && a == Wrap(dma + k) && o == Offset(lba, k)
  }

  lemma GoingNext(lba: u16, dma: u16, n: nat, k: nat, a: u16, o: nat)
    requires Going(lba, dma, n, k, a, o) && k >= FDC_SECTOR
    ensures Fact(Going(Wrap(lba + 1), Wrap(dma + FDC_SECTOR), n - 1, k - FDC_SECTOR, a, o))
  {
    NextSector(lba, dma, k);
  }

  lemma WrittenLater(t: Mach, m1: Mach, m: Mach, dma: u16, offset: nat, o: nat, a: u16)
    requires m1 == WriteSector(m, dma, offset) && Fact(Written(t, m1, o, a))
    ensures Fact(Written(t, m, o, a))
  {
  }

  /** Main result: a write of `n` sectors puts every byte of them on the image. */
  lemma {:induction false} WriteArrives(m: Mach, lba: u16, dma: u16, n: nat, k: nat, a: u16, o: nat)
    requires Fact(Going(lba, dma, n, k, a, o))
    ensures Fact(Written(Transfer(m, 2, lba, dma, n), m, o, a))
    decreases n
  {
    var m1 := WriteSector(m, dma, lba * FDC_SECTOR);
    OneSectorOut(m, lba, dma, n);
    if k < FDC_SECTOR {
      FirstOffset(lba, k);
      FirstWritten(m, lba, dma, n, k, m1);
    } else {
      GoingNext(lba, dma, n, k, a, o);
      WriteArrives(m1, Wrap(lba + 1), Wrap(dma + FDC_SECTOR), n - 1, k - FDC_SECTOR, a, o);
      WrittenLater(Transfer(m, 2, lba, dma, n), m1, m, dma, lba * FDC_SECTOR, o, a);
    }
  }

  // ---- commands ----------------------------------------------------------------------------------------------------

  /** The controller set up for a transfer, with a disk in it. */
  predicate SetUp(m: Mach, lba: u16, dma: u16, n: byte) {
    m.fdc.present && m.fdc.lba == lba && m.fdc.dma == dma && m.fdc.count == n
  }

  /** A command empties the controller's registers, transfers, and reports success. */
  lemma Commanded(m: Mach, cmd: byte)
    requires m.fdc.present
    ensures var m1 := m.(fdc := m.fdc.(status := 2, lba := 0, dma := 0, count := 0));
            var t := Transfer(m1, cmd, m.fdc.lba, m.fdc.dma, m.fdc.count);
            && FdcCmd(m, cmd).mem == t.mem && FdcCmd(m, cmd).fdc.disk == t.fdc.disk && FdcCmd(m, cmd).fdc.status == 0
            && m1.mem == m.mem && m1.fdc.disk == m.fdc.disk && m1.rom == m.rom
  {
  }

  lemma BackAgain(m: Mach, s: Mach, lba: u16, dma: u16, n: nat, k: nat, a: u16, o: nat)
    requires k < FDC_SECTOR * n <= 0x1_0000 && a == Wrap(dma + k) && InRam(s, a) && o == Offset(lba, k)
    requires s.fdc.disk == Transfer(m, 2, lba, dma, n).fdc.disk
    ensures Transfer(m, 2, lba, dma, n).mem == m.mem && Transfer(s, 1, lba, dma, n).mem[a] == m.mem[a]
  {
    WriteArrives(m, lba, dma, n, k, a, o);
    ReadArrives(s, lba, dma, n, k, a, o);
  }

  function Started(m: Mach): Mach { m.(fdc := m.fdc.(status := 2, lba := 0, dma := 0, count := 0)) }

  /**
   Main result: what one command stores, another brings back. Whatever happened to memory and to the rest of the
   machine in between, each byte in RAM is again what it was, if the transfer does not go round memory.
   */
  lemma StoredComesBack(m: Mach, s: Mach, lba: u16, dma: u16, n: byte, k: nat, a: u16)
    requires SetUp(m, lba, dma, n) && SetUp(s, lba, dma, n) && s.fdc.disk == FdcCmd(m, 2).fdc.disk
    requires k < FDC_SECTOR * n <= 0x1_0000 && a == Wrap(dma + k) && InRam(s, a)
    ensures FdcCmd(m, 2).mem == m.mem && FdcCmd(s, 1).mem[a] == m.mem[a]
    ensures FdcCmd(m, 2).fdc.status == 0 && FdcCmd(s, 1).fdc.status == 0
  {
    Commanded(m, 2);
    Commanded(s, 1);
    BackAgain(Started(m), Started(s), lba, dma, n, k, a, Offset(lba, k));
  }

  // ---- the ports -------------------------------------------------------------------------------------------------

  /** The bytes the kernel's disk driver writes, in its order, up to the command. */
  function Programmed(m: Mach, count: byte, lba: u16, dma: u16): Mach {
    var m1 := Output(m, 0x16, count);
    var m2 := Output(Output(m1, 0x11, Lo(lba)), 0x12, Hi(lba));
    Output(Output(m2, 0x13, Lo(dma)), 0x14, Hi(dma))
  }

  function Driven(m: Mach, count: byte, lba: u16, dma: u16, cmd: byte): Mach {
    Output(Programmed(m, count, lba, dma), 0x10, cmd)
  }

  /** They set the controller up for that transfer and change nothing else; a count of 0 means 1. */
  lemma DriverSetsUp(m: Mach, count: byte, lba: u16, dma: u16)
    requires m.fdc.present
    ensures var p := Programmed(m, count, lba, dma);
            && SetUp(p, lba, dma, if count == 0 then 1 else count)
            && p == m.(fdc := p.fdc) && p.fdc.disk == m.fdc.disk
  {
    var m1 := Output(m, 0x16, count);
    WordSet(m1.fdc.lba, lba);
    WordSet(m1.fdc.dma, dma);
  }

  lemma WordSet(was: u16, v: u16)
    ensures var low: u16 := Hi(was) as int * 256 + Lo(v) as int; Hi(v) as int * 256 + Lo(low) as int == v
  {
  }

  /**
   Main result: the driver's write and, at any later time, its read of the same sectors bring memory back, and
   the status port then reads 0.
   */
  lemma DriverRoundTrip(m: Mach, s: Mach, count: byte, lba: u16, dma: u16, k: nat, a: u16)
    requires m.fdc.present && s.fdc.present && s.fdc.disk == Driven(m, count, lba, dma, 2).fdc.disk
    requires k < FDC_SECTOR * (if count == 0 then 1 else count) <= 0x1_0000 && a == Wrap(dma + k) && InRam(s, a)
    ensures Driven(m, count, lba, dma, 2).mem == m.mem && Driven(s, count, lba, dma, 1).mem[a] == m.mem[a]
    ensures Input(Driven(s, count, lba, dma, 1), 0x15).1 == 0
  {
    var p, q := Programmed(m, count, lba, dma), Programmed(s, count, lba, dma);
    DriverSetsUp(m, count, lba, dma);
    DriverSetsUp(s, count, lba, dma);
    StoredComesBack(p, q, lba, dma, if count == 0 then 1 else count, k, a);
  }

  /** Without a disk nothing is transferred, and the status says so. */
  lemma NoDisk(m: Mach, cmd: byte)
    requires !m.fdc.present
    ensures var r := Output(m, 0x10, cmd); r == m.(fdc := m.fdc.(status := 1)) && Input(r, 0x15).1 == 1
  {
  }

  /** A key is there until it is read, the status bits say so, and a second key before that is an overrun. */
  lemma KeyArrives(m: Mach, ch: byte)
    ensures var x := Key(m, ch);
            && TestBit(Input(x, 0x80).1, 0) && (TestBit(m.acia.status, 0) ==> TestBit(Input(x, 0x80).1, 5))
            && Input(x, 0x81).1 == ch
            && !TestBit(Input(x, 0x81).0.acia.status, 0) && !TestBit(Input(x, 0x81).0.acia.status, 5)
  {
    var st := if TestBit(m.acia.status, 0) then PutBit(m.acia.status, 5) else m.acia.status;
    SetBitTest(m.acia.status, 5, 5);
    SetBitTest(st, 0, 0);
    SetBitTest(st, 0, 5);
    var now := PutBit(st, 0);
    ClearBitTest(now, 0, 0);
    ClearBitTest(ResBit(now, 0), 5, 0);
    ClearBitTest(ResBit(now, 0), 5, 5);
  }

  /** A byte sent to the terminal is the next on the screen. */
  lemma ByteShows(m: Mach, v: byte)
    ensures Output(m, 0x81, v).screen == m.screen + [v]
  {
  }
}
