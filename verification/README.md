# Manux: a verified model

Manux is a small operating system for a Z80 computer. This project models the parts of it whose
correctness cannot be seen from one function alone, and proves what they promise:

- **MFS**, the filesystem (`fs/mfs.c`, `fs/fd.c`) and the host tool that writes the same format
  (`mfs-util.c`). A disk is a sequence of 512-byte sectors; a data sector is a 4-byte header with a next
  pointer and 508 payload bytes; files are chains of sectors; free space is a byte-packed bitmap. `MfsFormat`
  holds the disk format, `MfsState` every operation as a function on a state value, `MfsKernel` the code's own
  loops over its in-place buffers, proved equal to those functions. The abstract view is a byte sequence per
  file. `MfsStructure` proves the structural invariant over all runs; `MfsContents`, `MfsReads`, `MfsLife`,
  `MfsIsolation` and `MfsUtil` prove what each operation does to the bytes; `MfsRefines` proves that whole runs,
  restarts included, refine `MfsVolume`, a volume of named byte strings without blocks or cursors, and `MfsCrash`
  says what a mount without a sync finds. `MfsStale` and `MfsMisplaced` say what happens where the code departs
  from that.
- **m80asm**, the two-pass assembler (`userland/m80asm.c`), on its own (`Asm`, `AsmPasses`, `AsmAssembler`),
  against the instruction decoder of the emulator (`AsmDecode`, `AsmMeaning`, `AsmSweep`, `AsmTargets`), and against
  its execution: `AsmWords` says what the words of a line stand for on the machine, and `AsmRuns` that stepping the
  emulator over an assembled line does what its words say.
- **bemu80**, the emulator (`bemu80/bemu80.c`): decoder, execution and disk controller (`Z80`, `Z80Exec`,
  `Z80Emulator`), the decoder as the inverse of the opcode table (`Z80Encode`), the byte operations as numbers and
  bit by bit (`Z80Ops`), multi-byte arithmetic (`Z80Alu`, and as a program in `Z80Add`) and shifts (`Z80Shift`),
  index instructions (`Z80Index`), repeated block instructions (`Z80Block`), port instructions (`Z80Ports`), disk
  transfers and the disk driver (`Z80Disk`), pushes, calls, interrupts and 16-bit arithmetic (`Z80Stack`), nested
  calls over whole runs (`Z80Calls`).
- **ecalc**, the recursive-descent calculator (`userland/ecalc.c`): `Ecalc`, `EcalcTrees`, `EcalcLines`,
  `EcalcParser`, and against exact arithmetic on unbounded integers in `EcalcExact`.
- **The terminal ring** fed by an interrupt handler (`driver/tty.c`): `Tty`.
- **The argument block** shared by `execv` and the C runtime (`kernel/kernel.c`, `userland/crt.asm.m4`): `Execv`.
- **The system call dispatcher** (`kernel/system_call.asm`): `Syscalls`.

`dafny verify dfyconfig.toml` checks everything.

## Where the code departs from its intent

The model does what the code does. Where that is not what the code is evidently for, a lemma says exactly when
the two agree:

- `O_APPEND` moves the position but not the block cursor: `MfsReads.AppendCursor` (right only on empty files) and
  `MfsMisplaced.AppendOverlaysFront` (appended bytes overlay the file from its start, and the size grows).
- `O_TRUNC` truncates nothing: `MfsReads.OpenFlags` (whatever the flags, opening a file that exists changes descriptors
  only).
- `mfs_seek` stores its argument as the position for every `whence`: `MfsReads.SeekCursor` (right for SEEK_CUR
  only from position 0, and for SEEK_END only on an empty file) and `MfsMisplaced.SeekFromHere`, `SeekFromEnd` and
  `SeekThenRead` (what is then read). The SEEK constants are the kernel's (`include/fs/mfs.h:39-41`); userland's
  (`include/sys/fcntl.h:19-21`) differ.
- `mfs_read` and `mfs_seek` do not maintain `prev_block`: `MfsMisplaced.ReadGoesStale` and
  `MfsMisplaced.SeekGoesStale` (when they leave a stale descriptor) and `MfsStale.WriteNeedsReady` (a write then
  spoils the file).
- Lookups scan `filecount` slots: `MfsLife.DeletePacked` (deleting any but the last file loses the last one to
  lookups) and `MfsLife.CreatePacked` (a name is found again if and only if it has at most 11 characters).
- `mfs_write` returns its count as a signed 16-bit number: `MfsMisplaced.WriteTells` (a stored write of 65535 bytes
  answers -1 like a full disk, and counts from 32768 on come back negative).
- Blocks are linked on disk at once, but the bitmap and the table wait for a sync: `MfsCrash.CrashRecovers` (a crash
  leaves a sound volume if and only if no file has grown by a block since).
- `load_executable` keeps the size in a signed 16-bit counter: `MfsReads.LoadReturns`.
- The tool's delete leaves bitmap bits set, and takes a file count of 0 to 255: `MfsUtil.WipeKeeps`.
- `LD A,(label)` loses a byte between the passes when the label's address is negative as a 16-bit int:
  `AsmPasses.SameSize` (no other form does), `AsmPasses.LabelsAreRight` (labels after it are off by one) and
  `AsmPasses.LosesAByte` (a program).
- A label at 0xFFFF reads as "not found", and a relative jump to an address that fits a byte takes it for the
  displacement: `AsmTargets.AbsoluteJumpsThere`, `AsmTargets.RelativeJumpsThere`, `AsmMeaning.LowJumpStrays`.
- Some lines assemble into another instruction than they mean, `LD A,(HL)` and `LD (HL),A` among them:
  `AsmMeaning.LineMeans` is exact for every line that means an instruction. So do RST operands that are no
  multiples of 8: `AsmMeaning.VectorsNeeded`.
- The overflow flag of `ADC HL` follows the rule for subtraction: `Z80Stack.Adc16Sums` (right if and only if the
  signed sum neither overflows nor leaves the sign of HL) and `Z80Stack.AdcMissesOverflow` (an input).
- `RR` of the CB group rotates to the left: `Z80Shift.RightHalves` (RR over n bytes halves a number if and only if
  there is nothing to move) and `Z80Shift.RrDoubles` (an input).
- DAA is not implemented: `Z80Ops.DaaDecimal` (after an ADD of decimal numbers A is their sum if and only if no digit
  is carried).
- The indexed CB group computes its result and then drops it, as its write-back stands after the last case of the
  switch (`bemu80/bemu80.c:1892-1894`): `Z80Index.IndexedCbDoes` (right if and only if there is nothing to change).
- The comment at `userland/ecalc.c:120` gives + and - a higher precedence than the logical operators; the code
  gives them the lowest, and takes at most one of each of `|`, `^`, `&` in a row: `EcalcTrees.UnchainedStops`.
- A decrement of the ring's count divided by the handler leaves the count one short, over all later runs:
  `Tty.TornDropForgets`, `Tty.NeverSoundAgain`, `Tty.TornDropHangs` and `Tty.TornDropLoses`.
- Sixteen arguments of more than 208 bytes overlap the pointer table: `Execv.AllRead`.
- A program that calls execv and fails is itself resumed by its later SYS_EXIT: `Syscalls.ExitResumesCaller`
  resumes whoever called execv last.

## Model

| member | source | states |
|---|---|---|
| MfsFormat.MarkMarks | fs/mfs.c:52-54 | setting a block's bit in the byte-packed bitmap marks that block and no other |
| MfsFormat.UnmarkClears | fs/mfs.c:56-58 | clearing a block's bit unmarks that block and no other |
| MfsFormat.RootRoundTrip | fs/mfs.c:60-87 | a root sector written to disk and read back is the same root |
| MfsFormat.TableRoundTrip | fs/mfs.c:60-87 | the file table written to its sector and read back is the same table |
| MfsFormat.StoredNameFound | fs/mfs.c:101-108 | a name stored in a cleared slot compares equal again if and only if it has at most 11 characters |
| MfsState.FirstFree | fs/mfs.c:90-99 | the allocation scan returns the first unmarked block at or after its start, and 0 only if there is none |
| MfsState.FindFrom | fs/mfs.c:101-108 | a lookup returns the first slot with that name among the slots scanned, -1 if there is none |
| MfsState.LinkedZeroed | fs/mfs.c:417-423 | zeroing a sector with a next pointer lowers the number of linked sectors, the measure by which the walk of `mfs_delete` ends on every disk image, cyclic or cross-linked |
| MfsChains.ChainUnique | fs/mfs.c:246-289 | a head block determines its chain |
| MfsStructure.StepKeeps | fs/mfs.c:161-434 | create, open, read, write (also when space runs out), seek, close, sync and delete of a closed file each keep a ledger of block owners and link times: every link leads to a later block of the same file |
| MfsStructure.RunsStaySound | fs/mfs.c:161-434 | from every sound volume with no file open, after every run of these operations every file's chain is acyclic, inside the data region, marked in the bitmap and disjoint from all others |
| MfsContents.MarkTakesOne | fs/mfs.c:90-99 | marking a free data block lowers the number of free blocks by one |
| MfsContents.UnmarkGivesOne | fs/mfs.c:417-423 | unmarking a used data block raises the number of free blocks by one |
| MfsContents.ScanFindsFree | fs/mfs.c:90-99 | the allocation scan fails if and only if no data block is free |
| MfsContents.RoundWrites | fs/mfs.c:291-355 | one turn of the write loop overlays its chunk at the position and leaves all other files, descriptors and the block count consistent |
| MfsContents.WriteStores | fs/mfs.c:291-355 | a write through a ready descriptor makes the file the old bytes overlaid and extended at the position with as many bytes as there is room for, keeps every other file and descriptor, and succeeds if and only if all bytes fit |
| MfsReads.ReadReturns | fs/mfs.c:246-289 | a read returns exactly the next bytes of the file up to its count or the end, and leaves the cursor after them |
| MfsReads.ReadsAreConsecutive | fs/mfs.c:246-289 | however reads are split, and whatever reads on other descriptors come between, a descriptor gets the consecutive slices of its file and then nothing |
| MfsReads.OpenCursor | fs/mfs.c:199-227 | a new descriptor's block cursor agrees with its position if and only if that position is 0, and it is then ready to write |
| MfsReads.OpenFlags | fs/mfs.c:161-228 | without the bit 0x200 a missing file is not opened; access 0 reads, 1 writes, 2 does both, 3 neither; a writer with the bit 0x08 starts at the size, everyone else at 0; nothing but descriptors changes when the file exists |
| MfsReads.AppendCursor | fs/mfs.c:213-223 | opened for appending, cursor and position agree if and only if the file is empty |
| MfsReads.SeekLands | fs/mfs.c:363-390 | the seek walk ends on the block and offset of the resolved position |
| MfsReads.SeekCursor | fs/mfs.c:363-390 | the cursor agrees with the stored position if and only if the argument lies within the chain and, for SEEK_CUR, the old position is 0, for SEEK_END, the file is empty |
| MfsReads.LoadReturns | fs/mfs.c:128-152 | the loader returns the file byte for byte if and only if its size is below 32768 |
| MfsLife.SyncKeeps | fs/mfs.c:82-87 | writing root, bitmap and table back changes no file |
| MfsLife.CreateAdds | fs/mfs.c:164-194 | a successful create adds one empty file and changes no other |
| MfsLife.EraseChain | fs/mfs.c:417-423 | on a proper chain the delete walk zeroes and frees exactly the chain's blocks |
| MfsLife.DeleteFrees | fs/mfs.c:406-434 | deleting a file clears exactly its chain's bits, raises the free count by the chain's length and keeps the bytes of every other file |
| MfsLife.FreedBlocksReturn | fs/mfs.c:90-99 | after a delete the next allocation succeeds, with a block no later than any block just freed |
| MfsLife.RemountRestores | fs/mfs.c:60-87 | mounting a synced disk restores the cached root, bitmap and table, with no file open |
| MfsLife.MountedBytes | include/fs/mfs.h:43-68 | each mounted field is at its byte offset: the root's words at 3 to 14 and its count at 15 of sector 0, 21 bytes to a table entry; descriptors 0 to 2 are the terminal and the others closed |
| MfsLife.CloseRemountKeeps | fs/mfs.c:230-244 | closing a descriptor and mounting again keeps every file's entry, chain and bytes |
| MfsLife.BootOpenRead | fs/mfs.c:246-289 | after a boot, opening a file and reading returns its first bytes |
| MfsLife.WriteSurvivesRemount | fs/mfs.c:230-355 | bytes written, closed, remounted, reopened and read come back as the overlaid contents |
| MfsLife.CreatePacked | fs/mfs.c:164-194 | on a packed table a created file is found again if and only if its name has at most 11 characters, and the table stays packed |
| MfsLife.DeletePacked | fs/mfs.c:406-434 | deleting keeps the table packed if and only if the last file goes; otherwise the last file is no longer found |
| MfsStale.StaleLosesBytes | fs/mfs.c:306-327 | a write that needs a new block while `prev_block` is stale leaves a file shorter than its recorded size |
| MfsStale.WriteNeedsReady | fs/mfs.c:291-355 | with the cursor in place and a block free, the file is intact after a write if and only if the descriptor was ready |
| MfsIsolation.RunsIsolateFiles | fs/mfs.c:161-434 | every run that neither creates, writes nor deletes a file leaves that file's entry, chain and sectors unchanged |
| MfsMisplaced.ReadGoesStale | fs/mfs.c:264-286 | reading a file whose last block is full to its end leaves a descriptor that spoils the next write, unless the last block is already remembered |
| MfsMisplaced.SeekGoesStale | fs/mfs.c:363-390 | so does a seek to that end |
| MfsMisplaced.TwinWrites | fs/mfs.c:305-352 | two descriptors with the same cursor write the same sectors, whatever their positions |
| MfsMisplaced.AppendOverlaysFront | fs/mfs.c:161-355 | bytes written to a file of n bytes after an open for append overlay it from its start, and its size becomes n plus their number |
| MfsMisplaced.WriteTells | fs/mfs.c:291-355 | a write answers the number of bytes if and only if they were stored and are fewer than 32768, and -1 if and only if they were not stored or are 65535 |
| MfsMisplaced.SeekThenRead | fs/mfs.c:246-390 | after any seek, with an unknown whence and past the chain too, a read returns bytes from the resolved offset, but as many as lie between the raw argument and the end of the file |
| MfsMisplaced.SeekFromStart | fs/mfs.c:246-390 | after a seek with whence 1 a read returns the bytes from the argument on |
| MfsMisplaced.SeekFromHere | fs/mfs.c:246-390 | two seeks, to a and by d with whence 2, land at a + d: the read returns the bytes from there, as many as if it stood at d |
| MfsMisplaced.SeekAfterRead | fs/mfs.c:246-390 | so does a seek by d with whence 2 after a read, from the position plus the bytes read |
| MfsMisplaced.SeekFromEnd | fs/mfs.c:246-390 | with whence 3 it lands at the size of the file plus d |
| MfsRefines.CallRefines | fs/mfs.c:161-434 | one operation of a disciplined program returns what it returns on the volume of named byte strings, and leaves corresponding states |
| MfsRefines.RunRefines | fs/mfs.c:60-434 | so do whole runs, with restarts by sync and mount anywhere in them, result by result |
| MfsRefines.FormattedRefines | fs/mfs.c:60-434 | over every disciplined run from a formatted disk, restarts included, all results are those of the empty volume of 2874 blocks and 24 files, and a file is found by a name if and only if the map has the name, with the bytes the map has |
| MfsCrash.CrashRecovers | fs/mfs.c:60-87 | after a sync and any run of reads, writes, seeks and opens of files that exist, mounting without a sync finds a sound volume if and only if no file has grown by a block, and then every file as last written, cut back to its length at the sync |
| MfsKernel.Kernel.Init | fs/mfs.c:60-80 | mounting fills the cached root, bitmap, table and descriptors as the mount function says, and answers -1 to a wrong checksum and to sectors that are not on the disk |
| MfsKernel.Kernel.WriteChanges | fs/mfs.c:82-87 | the three sector writes are the sync function |
| MfsKernel.Kernel.AllocBlock | fs/mfs.c:90-99 | the allocation loop over the in-place bitmap is the allocation function |
| MfsKernel.Kernel.FindFile | fs/mfs.c:101-108 | the lookup loop is the lookup function |
| MfsKernel.Kernel.Create | fs/mfs.c:164-194 | the create path, with its slot search and its block kept on failure, is the create function |
| MfsKernel.Kernel.AllocFd | fs/fd.c:30-37 | the descriptor scan returns the first free descriptor |
| MfsKernel.Kernel.Open | fs/mfs.c:161-228 | open is the open function, on every flag and failure |
| MfsKernel.Kernel.Close | fs/fd.c:39-52 | closing a descriptor is the close function: 1 for the terminal and out of range, a sync for a file |
| MfsKernel.Kernel.CloseFile | fs/mfs.c:230-244 | the filesystem's own close answers -1 to a number that is no descriptor |
| MfsKernel.Kernel.Read | fs/mfs.c:246-289 | the read loop through the shared sector buffer is the read function |
| MfsKernel.Kernel.EnsureBlock | fs/mfs.c:306-327 | the block step of the write loop is its function |
| MfsKernel.Kernel.PutChunk | fs/mfs.c:329-351 | the copy step of the write loop is its function |
| MfsKernel.Kernel.Write | fs/mfs.c:291-355 | the write loop is the write function, also when space runs out |
| MfsKernel.Kernel.Seek | fs/mfs.c:363-390 | the seek loop is the seek function |
| MfsKernel.Kernel.Delete | fs/mfs.c:406-434 | the delete loop ends on every disk image and is the delete function |
| MfsKernel.Kernel.LoadExecutable | fs/mfs.c:128-152 | the load loop is the load function |
| MfsUtil.FormatDisk | mfs-util.c:182-212 | the format loop writes the formatted image |
| MfsUtil.FormatMounts | mfs-util.c:182-212 | a formatted image mounts as an empty, packed and sound volume of 2874 free blocks and at most 24 files |
| MfsUtil.FormattedRunsSound | mfs-util.c:182-212 | every run of kernel operations from a formatted disk keeps all chains sound |
| MfsUtil.WipeKeeps | mfs-util.c:462-490 | the tool's delete keeps every other file and every bitmap bit; its result is usable if and only if the file count was not 0 |
| MfsUtil.AllocManySpare | mfs-util.c:310-321 | pre-allocation finds distinct blocks that belong to no file, all of them if and only if that many are free |
| MfsUtil.LaidOutFile | mfs-util.c:323-341 | the blocks written form a chain that holds exactly the data |
| MfsUtil.StoreHolds | mfs-util.c:294-348 | storing 1 to 16384 bytes succeeds if and only if enough blocks are free; the file then holds the data byte for byte, and no other file's bytes change either way |
| MfsUtil.StoredLoads | mfs-util.c:268-348 | what the tool stored and synced is, once the disk is mounted, returned byte for byte by the kernel's loader and by the tool's own |
| MfsUtil.DeleteEntry | mfs-util.c:462-490 | the tool's delete loop is its function |
| MfsUtil.CountBlocks | mfs-util.c:304-307 | the subtracting loop counts the blocks a size needs |
| MfsUtil.AllocBlocks | mfs-util.c:310-321 | the pre-allocating loop is its function |
| MfsUtil.WriteBlocks | mfs-util.c:329-341 | the writing loop lays the data out as its function says |
| MfsUtil.SaveToDisk | mfs-util.c:294-348 | the whole store is its function |
| MfsUtil.LoadFile | mfs-util.c:268-292 | the tool's search and load loops are its load function |
| AsmPasses.SameSize | userland/m80asm.c:310-805 | a line that assembles in both passes has the same length in both, except `LD A,(label)` with a negative address, which is one byte shorter in the second |
| AsmPasses.PassesApart | userland/m80asm.c:858-898 | at every line the first pass's counter is ahead of the second's by the number of bytes lost so far |
| AsmPasses.PassesAgree | userland/m80asm.c:858-898 | both passes hold the same counter at every line if and only if no line is of that form |
| AsmPasses.CounterCounts | userland/m80asm.c:64-80 | the second pass's counter is the base plus the bytes emitted |
| AsmPasses.LabelEntered | userland/m80asm.c:274-288 | a label is entered with the counter at its first definition |
| AsmPasses.LabelsAreRight | userland/m80asm.c:858-898 | in an error-free program a label stands for the address at which the code after it is emitted, plus the bytes lost before it; so it is right if and only if none were |
| AsmPasses.LosesAByte | userland/m80asm.c:379-384 | a program whose label stands for 0x8000 while its code is at 0x7FFF |
| AsmTargets.AbsoluteJumpsThere | userland/m80asm.c:672-747 | in the assembled output, JP and CALL to a label, conditional or not, are decoded as going to the address the label stands for; 0xFFFF alone becomes 0 |
| AsmTargets.RelativeJumpsThere | userland/m80asm.c:699-786 | in the assembled output, JR and DJNZ to a label are decoded as relative jumps of their kind, which go to that address always, but for addresses whose int fits a byte, where they do from one place only |
| AsmTargets.AbsoluteJumpsRun | bemu80/bemu80.c:1261-1443 | run from the address of such a JP or CALL, the emulator goes to the address the label stands for if and only if the named condition, if any, holds, and on to the next line otherwise |
| AsmTargets.RelativeJumpsRun | bemu80/bemu80.c:1013-1225 | run from the address of such a JR or DJNZ it is taken if and only if the named condition holds, or B does not become 0, and then goes there under exactly that proviso |
| AsmDecode.LineDecodes | userland/m80asm.c:310-803 | the emulator fetches every assembled line's bytes as one instruction, of the line's length, with the line's fields and immediates |
| AsmMeaning.LineMeans | userland/m80asm.c:335-803 | a line that assembles encodes what the Z80's assembly language means by it, relative jumps by the address they go to, if and only if it is not one of the listed lines |
| AsmMeaning.LowJumpStrays | userland/m80asm.c:91-101 | JR 0x50 at 0x10 goes to 0x62 |
| AsmMeaning.VectorsNeeded | userland/m80asm.c:664-670 | an RST operand up to 0x38 is decoded as a restart if and only if it is a multiple of 8; operand 3 is fetched as three bytes |
| AsmSweep.SweepInStep | bemu80/bemu80.c:1445-1461 | a linear sweep stays in step with lines that each start where the one before ends |
| AsmSweep.SweepRecovers | userland/m80asm.c:858-898 | the k-th fetch of a linear sweep over the whole output is the k-th instruction line: its address, its length, and its meaning unless its form is listed |
| AsmRuns.LineRuns | userland/m80asm.c:310-803 | the emulator, stepped at an assembled line that is not one of the listed, does to the machine what the line's words say: loads copy between the registers and bytes named, operations compute, counters count, exchanges exchange, and jumps, calls and returns are taken if and only if the named condition holds |
| AsmAssembler.Assembler.Emit | userland/m80asm.c:64-80 | bytes are counted in both passes and written in the second |
| AsmAssembler.Assembler.LabelAddress | userland/m80asm.c:54-62 | the label search returns the first entry's address, and nothing in the first pass |
| AsmAssembler.Assembler.Codegen | userland/m80asm.c:238-806 | one line changes counter, labels and output as the current pass says, fails exactly when that does, and leaves the opcode of a relative jump that is too far |
| AsmAssembler.Assembler.OnePass | userland/m80asm.c:858-897 | the loop over the lines is one pass, up to its first error |
| AsmAssembler.Assembler.Assemble | userland/m80asm.c:858-898 | the output is the second pass's under the labels the first pass found, whether or not either met an error; without errors it is the assembled program |
| Z80Alu.SignedValue | bemu80/bemu80.c:482-518 | the signed reading of a byte string is the unsigned one less 256^n when the top bit is set |
| Z80Alu.AddChainSums | bemu80/bemu80.c:482-518 | add8 and then adc8 over n bytes compute the n-byte sum; the last carry is the carry out and the last overflow flag is the n-byte signed overflow |
| Z80Alu.SubChainSubtracts | bemu80/bemu80.c:520-573 | sub8 and then sbc8 over n bytes compute the n-byte difference, with borrow and signed overflow |
| Z80Ops.AluComputes | bemu80/bemu80.c:482-620 | ADD, ADC, SUB, SBC and CP as numbers with carry and signed overflow, AND, XOR and OR bit by bit with zero, sign and parity |
| Z80Ops.CountsByte | bemu80/bemu80.c:622-660 | INC and DEC add and take 1, with overflow, and keep the carry |
| Z80Ops.AccumulatorComputes | bemu80/bemu80.c:1152-1220 | RLCA, RRCA, RLA and RRA as equations of numbers and carries, CPL bit by bit, SCF and CCF; DAA does nothing |
| Z80Ops.DaaDecimal | bemu80/bemu80.c:1194-1198 | after an ADD of two decimal numbers and DAA, A and the carry are their decimal sum if and only if no digit is carried |
| Z80Ops.ShiftComputes | bemu80/bemu80.c:728-870 | each shift and rotation of the CB group as an equation of numbers and carries, with its flags |
| Z80Ops.BitsComputed | bemu80/bemu80.c:872-890 | BIT tells one bit, RES and SET change that bit and no other |
| Z80Ops.CbDoes | bemu80/bemu80.c:1622-1668 | a CB instruction does that to the register or the byte it names, and to nothing else |
| Z80Ops.NegDoes | bemu80/bemu80.c:1515-1520 | NEG is the difference from 0 |
| Z80Ops.NibblesTurn | bemu80/bemu80.c:1572-1608 | RLD and RRD turn the three nibbles of A's low half and the byte at HL by one place |
| Z80Encode.DecodeInverts | bemu80/bemu80.c:1013-1896 | the bytes of the Z80's opcode table for an instruction, prefixes included, are fetched as that instruction, whole |
| Z80Index.IndexMirrors | bemu80/bemu80.c:1670-1845 | an index instruction on registers is the one without the prefix, between two exchanges of HL and the index register |
| Z80Index.IndexPoints | bemu80/bemu80.c:1670-1845 | one on memory is the instruction on the byte at HL, with HL lent to the index register plus the displacement |
| Z80Index.IndexMovesHl | bemu80/bemu80.c:1670-1845 | H and L themselves are loaded from and stored at the indexed byte |
| Z80Index.IndexedCbDoes | bemu80/bemu80.c:1847-1896 | an indexed CB instruction sets the flags of its operation and changes nothing else; that is right if and only if the operation leaves the byte as it is, which is said byte by byte |
| Z80Ports.OtirShows | bemu80/bemu80.c:973-993 | OTIR or OTDR to the serial port, stepped to its end, shows B bytes from HL on in order, 256 for B = 0, and stores nothing |
| Z80Ports.SentByte | bemu80/bemu80.c:973-993 | the k-th of them is the byte k places from HL |
| Z80Ports.EchoShows | bemu80/bemu80.c:188-476 | a key read by IN A,(n) and written by OUT (n),A is the next byte on the screen |
| Z80Ports.EchoThroughC | bemu80/bemu80.c:1473-1488 | so is one that goes through another register, with the port in C |
| Z80Ports.NoRegister | bemu80/bemu80.c:1473-1488 | IN without a register reads nothing, OUT without one sends 0 |
| Z80Ports.ControlWritten | bemu80/bemu80.c:385-395 | a reset of the serial port leaves the receiver empty and the sender ready |
| Z80Ports.KeyStored | bemu80/bemu80.c:951-971 | INI and IND store the key at HL |
| Z80Ports.ControlKeeps | bemu80/bemu80.c:1544-1571 | A goes through I or R and back unchanged, and PV then tells whether interrupts were enabled |
| Z80Ports.InterruptGated | bemu80/bemu80.c:254-269 | an interrupt is taken if and only if interrupts were enabled last and the mode set is 1 |
| Z80Ports.ReturnGates | bemu80/bemu80.c:1522-1533 | RETN brings back the interrupt flag that RETI leaves alone |
| Z80Disk.ReadArrives | bemu80/bemu80.c:327-373 | after a read of n sectors each byte of RAM in reach holds its byte of the image, counted from the first sector, through wrap-around of addresses and sector numbers |
| Z80Disk.ReadElsewhere | bemu80/bemu80.c:327-373 | no other byte of memory changes |
| Z80Disk.WriteArrives | bemu80/bemu80.c:327-373 | after a write of n sectors each byte of the image in reach holds its byte of memory |
| Z80Disk.WriteElsewhere | bemu80/bemu80.c:327-373 | no byte of another sector changes |
| Z80Disk.StoredComesBack | bemu80/bemu80.c:327-373 | what command 2 wrote, command 1 brings back into every byte of RAM, on any machine with that image |
| Z80Disk.DriverSetsUp | driver/disk.asm:18-26 | the driver's port writes leave the controller with its count, sector and address, whatever was there |
| Z80Disk.DriverRoundTrip | driver/disk.asm:11-49 | WRITE_DISK and then READ_DISK bring back every byte, and the status read is 0 |
| Z80Disk.NoDisk | bemu80/bemu80.c:327-331 | without a disk a command does nothing but set the status to 1 |
| Z80Disk.KeyArrives | bemu80/bemu80.c:188-203 | a key sets the data bit, and the overrun bit if one was waiting; reading gives it once and clears both |
| Z80Disk.ByteShows | bemu80/bemu80.c:396-402 | a byte sent is the next on the screen |
| Z80Block.CopyUpByte | bemu80/bemu80.c:892-948 | every destination byte of an ascending copy, with the pattern that an overlap propagates |
| Z80Block.LdirCopies | bemu80/bemu80.c:892-948 | stepping LDIR n times performs the n-byte ascending copy and ends with BC 0, HL and DE advanced by n, PC past the instruction and 21(n-1)+16 cycles |
| Z80Block.CopyDownByte | bemu80/bemu80.c:892-948 | every destination byte of a descending copy, with the pattern that an overlap propagates |
| Z80Block.LddrCopies | bemu80/bemu80.c:892-948 | stepping LDDR n times performs the n-byte descending copy, with counters, PC and cycles |
| Z80Block.CpirSearches | bemu80/bemu80.c:892-948 | stepping CPIR finds the first match among BC bytes, or uses them all and reports none |
| Z80Block.CpdrSearches | bemu80/bemu80.c:892-948 | stepping CPDR does the same downwards |
| Z80Add.LoopAdds | bemu80/bemu80.c:482-573 | a program that loops ADC or SBC over n bytes, stepped to its end, replaces the number at DE by the sum or difference with the one at HL, with carry out and signed overflow in the flags, and changes nothing else in memory |
| Z80Stack.CallReturns | bemu80/bemu80.c:98-107 | after CALL, CALL cc or RST, a return made with the stack as the call left it goes to the instruction after the call |
| Z80Stack.InterruptReturns | bemu80/bemu80.c:254-269 | the handler starts at 0x38 with interrupts off, and RETI made with the stack as the interrupt left it resumes the interrupted program |
| Z80Stack.PushPop | bemu80/bemu80.c:98-107 | a pair pushed and popped into another is copied |
| Z80Stack.PushPopAf | bemu80/bemu80.c:170-187 | PUSH AF and POP AF keep accumulator and all flags |
| Z80Stack.Adc16Sums | bemu80/bemu80.c:678-696 | ADC HL: sum, carry, zero and sign; its overflow flag is right if and only if the signed sum of the operands and the carry fits and has the sign of HL |
| Z80Stack.AdcMissesOverflow | bemu80/bemu80.c:678-696 | 0x7FFF + 1 overflows without setting the flag |
| Z80Stack.Sbc16Subtracts | bemu80/bemu80.c:698-716 | SBC HL: difference, borrow, zero, sign and signed overflow |
| Z80Stack.AdcHlRuns | bemu80/bemu80.c:1489-1499 | the instruction gives HL and the flags that sum, from the pair it names |
| Z80Stack.SbcHlRuns | bemu80/bemu80.c:1489-1499 | likewise for the difference |
| Z80Calls.NestedCallsReturn | bemu80/bemu80.c:98-107 | for every call, restart or interrupt and every run after it in which calls, interrupts and pushes nest, are closed in order by returns and pops, and have no return address overwritten, the event that closes it resumes the program where it left off, with the same stack pointer |
| Z80Calls.OthersKeepSp | bemu80/bemu80.c:892-1890 | every instruction that is no call, return, push or pop and does not name SP as its destination keeps the stack pointer |
| Z80Shift.LeftDoubles | bemu80/bemu80.c:746-762 | RL over n bytes from the low end doubles the number, carry in and carry out included |
| Z80Shift.RightHalves | bemu80/bemu80.c:1630-1644 | RR over n bytes from the high end halves the number if and only if all bytes are 0 and the carry is clear, or all are 0xFF and it is set |
| Z80Shift.RrDoubles | bemu80/bemu80.c:1638 | RR of 2 is 4 |
| Z80Exec.RunKeepsRom | bemu80/bemu80.c:67-107 | over every run of instructions, interrupts, keys and disk transfers no byte below the ROM limit changes (no access can leave memory, a sequence of MEM_SIZE bytes) |
| Z80Emulator.Emulator.Write8 | bemu80/bemu80.c:67-70 | a byte is stored exactly when its address is inside memory and not in ROM |
| Z80Emulator.Emulator.ReadSector | bemu80/bemu80.c:327-373 | the transfer loop is its function |
| Z80Emulator.Emulator.FdcCmd | bemu80/bemu80.c:327-373 | every controller command is its function and leaves ROM alone |
| Z80Emulator.Emulator.Execute | bemu80/bemu80.c:1445-1461 | the emulation loop is the run function and leaves ROM alone |
| EcalcTrees.PrintedReads | userland/ecalc.c:124-223 | a printed tree is read back with its value and its zero-division count at every level whose operators do not follow it |
| EcalcTrees.UnchainedStops | userland/ecalc.c:124-149 | after a complete or, exclusive or, or and, a second operator of that kind is left unread at every level above |
| EcalcLines.LexRender | userland/ecalc.c:66-105 | tokens written with any spacing are read back as themselves |
| EcalcLines.LineEvaluates | userland/ecalc.c:124-223 | for every tree, printed with the parentheses the grammar needs and any others and in any spacing, the evaluator returns the tree's value, reads the line to its end, and reports exactly its divisions by zero |
| EcalcExact.ValueWraps | userland/ecalc.c:124-223 | a tree of sums, differences, products, signs, complements and bitwise operators has its exact value on unbounded integers, reduced once to 16 bits |
| EcalcExact.ValueExact | userland/ecalc.c:50-223 | a tree whose partial results all fit 16 bits and which divides by no zero has its exact value, powers and truncated quotients included, and reports nothing |
| EcalcExact.DivisionTruncates | userland/ecalc.c:192-208 | x == q * y + r with r smaller than y and of the sign of x, but for -32768 / -1, which stays -32768 |
| EcalcExact.BitsCombine | userland/ecalc.c:124-149 | the three logical operators bit by bit |
| EcalcExact.LineComputes | userland/ecalc.c:124-223 | so for lines: a printed tree in any spacing is read to the end of the line and has these values |
| EcalcParser.Calculator.Operate | userland/ecalc.c:50-223 | each operator's arithmetic in the machine's own steps is the 16-bit operation, and a division by zero is reported |
| EcalcParser.IntPower | userland/ecalc.c:50-60 | multiplying in 16 bits at every turn gives the exact power reduced once |
| EcalcParser.Calculator.NextToken | userland/ecalc.c:66-105 | the next token becomes current, and the pointer never passes the terminating NUL |
| EcalcParser.Calculator.ParseFactor | userland/ecalc.c:163-190 | on every input ends, and is the evaluator's function at its level |
| EcalcParser.Calculator.ParseExponent | userland/ecalc.c:152-161 | likewise for the chained power loop |
| EcalcParser.Calculator.ParseTerm | userland/ecalc.c:192-208 | likewise for the chained product loop, with its division-by-zero message |
| EcalcParser.Calculator.ParseAnd | userland/ecalc.c:124-131 | likewise for at most one and-sign |
| EcalcParser.Calculator.ParseXor | userland/ecalc.c:133-140 | likewise for at most one exclusive-or sign |
| EcalcParser.Calculator.ParseOr | userland/ecalc.c:142-149 | likewise for at most one or-sign |
| EcalcParser.Calculator.ParseExpr | userland/ecalc.c:210-223 | likewise for the chained sum loop |
| EcalcParser.Calculator.Evaluate | userland/ecalc.c:229-241 | a line's value is the evaluator's on the line's tokens, and becomes the next line's `ans` |
| Tty.InterruptKeeps | driver/tty.c:32-39 | the handler, at any point of the reader, keeps the counted cells equal to the accepted but undelivered bytes |
| Tty.ReaderKeeps | driver/tty.c:72-79 | so does every statement of the reader |
| Tty.DeliveredInOrder | driver/tty.c:18-79 | in every interleaving from power-on the accepted bytes are the delivered ones followed by those pending in the ring, none overwritten |
| Tty.ReaderGetsOldest | driver/tty.c:50-55 | a waiting reader gets the oldest pending byte with its fourth statement, whatever arrives meanwhile |
| Tty.TornDropForgets | driver/tty.c:77 | with the decrement divided by an arrival the invariant survives if and only if the ring was full; otherwise the count is one short of the pending bytes |
| Tty.NeverSoundAgain | driver/tty.c:18-79 | over every later run the count stays one short of the pending bytes, so the invariant never holds again |
| Tty.TornDropHangs | driver/tty.c:74-77 | if it was the only byte counted, the reader waits beside a pending byte through every run up to the next arrival |
| Tty.TornDropLoses | driver/tty.c:32-39 | in a ring one short of full, two more arrivals overwrite the oldest pending byte |
| Tty.Driver.Receive | driver/tty.c:32-39 | the handler on the real cells is the handler function |
| Tty.Driver.FetchByte | driver/tty.c:75 | the fetch is the reader's step |
| Tty.Driver.StepTail | driver/tty.c:76 | the tail's step is the reader's step |
| Tty.Driver.DropCount | driver/tty.c:77-78 | the decrement and return deliver the fetched byte |
| Execv.TableReads | kernel/kernel.c:60-70 | each table entry is the address of its string, and the table ends in a null pointer |
| Execv.ArgumentReads | kernel/kernel.c:50-70 | an argument is read back through its pointer if and only if it ends before the table |
| Execv.AllRead | kernel/kernel.c:41-76 | all arguments read back unless there are sixteen of them in more than 208 bytes |
| Execv.RuntimeAgrees | userland/crt.asm.m4:104-122 | the C runtime computes the same table address as the kernel, in 8-bit steps |
| Execv.CopyStrings | kernel/kernel.c:50-58 | the longest prefix of arguments that fits is packed in order, with their offsets |
| Execv.SetPointers | kernel/kernel.c:60-70 | the pointer loop completes the layout |
| Execv.Pack | kernel/kernel.c:41-76 | the block is the layout of the longest prefix that fits, for a null vector that of none |
| Syscalls.Processor.Enter | kernel/system_call.asm:107-120 | the stacks are switched, and a number is refused exactly when it is above 14 |
| Syscalls.Processor.Syscall | kernel/system_call.asm:107-210 | every call, valid or not, leaves KERNEL_SP as it was; the handler of its number runs once, with the caller's arguments where C or assembly expects them and the caller's memory; ordinary calls restore AF, BC, DE, IX and IY and return to their caller with that handler's result in HL and its memory outside the kernel |
| Syscalls.Processor.SysExit | kernel/system_call.asm:223-232 | the exit returns through the stack pointer noted in SHELL_SP |
| Syscalls.Processor.SysExecv | kernel/system_call.asm:401-440 | the caller's stack pointer is noted and file name and argument vector are passed; -1 returns to the caller, anything else starts the program at its entry on its own stack with its arguments |
| Syscalls.KernelStackBalanced | kernel/system_call.asm:179-210 | over every sequence of calls KERNEL_SP comes back to its starting value |
| Syscalls.ExitResumesCaller | kernel/system_call.asm:223-232 | SYS_EXIT resumes, at its return address, whoever called execv last: the shell, if the program calls no execv |
| Syscalls.Processor.Session | kernel/system_call.asm:107-440 | any sequence of calls with user code in between is such a history, ends with KERNEL_SP as it began, and resumes the starter of a program that exits |

## Left out

- Terminal set-up, timing, the debugger prompt, argument parsing, printing and threads of bemu80: host I/O.
- Host file calls and failing transfers: the filesystem's disk is a sequence of sectors and transfers succeed. The driver's port sequence is modelled on the emulator alone (`Z80Disk.DriverRoundTrip`).
- The shell, the editor, kstdio and the system call wrappers: thin or interactive, they would add easy members only.
- `fd_count`: nothing reads it for a decision.
- Clocks and randomness: the two readings of the refresh register in SYS_RAND are inputs; bytes arriving at the terminal are events.
- Uninitialised stack variables of `mfs_open` and `mfs_seek` are parameters called `junk`.
- Z80Exec.Step: cycles are counted for block instructions only; nothing is claimed about the half-carry and the two undocumented flags, nor about the flags of INI, OUTI and their kin.
- Z80Calls.NestedCallsReturn: runs that load SP, or pop what a call pushed, are outside; `Z80Stack.CallReturns` holds for any code that leaves the stack as the call did.
- Asm.Gen: lines are operand tokens with numeric values, not raw text; the dispatch of `line_codegen` is a function from which the emitting loop takes its bytes.
- AsmAssembler.Assembler.Assemble: file reading and line splitting are not modelled.
- AsmMeaning.MeaningOf: covers the instructions whose mnemonics the assembler knows; lines that mean no instruction but assemble, such as LD AF,1, are only claimed to be fetched whole.
- Ecalc.Lex: a number too large for an int wraps, as a 16-bit atoi does; the value of a division by zero is a parameter.
- AsmRuns.LineRuns: DAA, IN and OUT lines are claimed to be fetched with their meaning (`AsmMeaning.LineMeans`); what they then do is in `Z80Ops` and `Z80Ports`.
- Tty.Reader: statements of the reader are indivisible, the decrement included; `Tty.TornDropForgets` says what happens otherwise. The echo of `z80_rst_10h` is not modelled.
- Execv.Pack: loading the program and the other header fields are not part of it; the local array of offsets is a sequence.
- MfsVolume.Disciplined: a program that reads a lost descriptor, writes where it may not, or deletes another file than the newest is outside the refinement; what happens then is in `MfsMisplaced`, `MfsStale` and `MfsLife`.
- Syscalls.Processor.Syscall: C handlers are assumed balanced and to leave the kernel's cells alone; flags inside the kernel, interrupts during a call and the loops of SYS_GETS and SYS_PUTS are not modelled.
- MfsUtil.SaveToDisk: the program buffer is a sequence; sizes above 16384 bytes do not fit the tool's buffer.
