/** The emulator's loops, in place: sector transfers and the main loop. */
module Z80Emulator {
  import opened Machine
  import opened Z80
  import X = Z80Exec

  class Emulator {
    var cpu: X.Cpu
    var mem: Mem
    var rom: u16
    var fdc: X.Fdc
    var acia: X.Acia
    var screen: seq<byte>

    function State(): X.Mach
      reads this
    {
      X.Mach(cpu, mem, rom, fdc, acia, screen)
    }

    constructor (m: X.Mach)
      ensures State() == m
    {
      cpu, mem, rom, fdc, acia, screen := m.cpu, m.mem, m.rom, m.fdc, m.acia, m.screen;
    }

    /** The only way memory is ever written. */
    method Write8(a: u16, v: byte)
      modifies this`mem
      ensures State() == X.SetMem8(old(State()), a, v)
      ensures forall i :: 0 <= i < MEM_SIZE && (i < rom || i != a) ==> mem[i] == old(mem[i])
      ensures rom <= a < MEM_SIZE ==> mem[a] == v
    {
      if a >= MEM_SIZE || a < rom {
        return;
      }
      mem := mem[a := v];
    }

    method ReadSector(dma: u16, offset: nat)
      modifies this`mem
      ensures State() == X.ReadSector(old(State()), dma, offset, 0)
    {
      var i := 0;
      while i < X.FDC_SECTOR && offset + i < |fdc.disk|
        invariant 0 <= i <= X.FDC_SECTOR
        invariant X.ReadSector(old(State()), dma, offset, 0) == X.ReadSector(State(), dma, offset, i)
      {
        Write8(Wrap(dma + i), fdc.disk[offset + i]);
        i := i + 1;
      }
    }

    /** `fdc_cmd`: as many sectors as asked for, advancing image and memory position together. */
    method FdcCmd(cmd: byte)
      modifies this`mem, this`fdc
      ensures State() == X.FdcCmd(old(State()), cmd)
      ensures forall i :: 0 <= i < MEM_SIZE && i < rom ==> mem[i] == old(mem[i])
    {
      if !fdc.present {
        fdc := fdc.(status := 1);
        return;
      }
      var lba, dma, count: int := fdc.lba, fdc.dma, fdc.count;
      fdc := fdc.(status := 2, lba := 0, dma := 0, count := 0);
      ghost var m1 := State();
      ghost var lba0, dma0, count0 := lba, dma, count;
      var c := 0;
      while c < count
        invariant 0 <= c <= count && rom == m1.rom
        invariant 0 <= lba < 0x1_0000 && 0 <= dma < 0x1_0000
        invariant X.Transfer(m1, cmd, lba0, dma0, count0) == X.Transfer(State(), cmd, lba, dma, count - c)
      {
        if cmd == 1 {
          ReadSector(dma, lba * X.FDC_SECTOR);
        }
        if cmd == 2 {
          fdc := X.WriteSector(State(), dma, lba * X.FDC_SECTOR).fdc;
        }
        dma := Wrap(dma + X.FDC_SECTOR);
        lba := Wrap(lba + 1);
        c := c + 1;
      }
      fdc := fdc.(status := 0);
    }

    /** The main loop over what happens next: instructions, interrupts, keys. */
    method Execute(events: seq<X.Event>)
      modifies this
      ensures State() == X.Run(old(State()), events)
      ensures rom == old(rom) && forall i :: 0 <= i < MEM_SIZE && i < rom ==> mem[i] == old(mem[i])
    {
      X.RunKeepsRom(State(), events);
      var i := 0;
      while i < |events|
        invariant 0 <= i <= |events|
        invariant X.Run(old(State()), events) == X.Run(State(), events[i..])
      {
        var m := X.Happen(State(), events[i]);
        assert events[i..][0] == events[i] && events[i..][1..] == events[i + 1..];
        cpu, mem, rom, fdc, acia, screen := m.cpu, m.mem, m.rom, m.fdc, m.acia, m.screen;
        i := i + 1;
      }
    }
  }
}
