# Verified model of the VHDL/PCIe co-simulation blocks

A Dafny model of the parts of the repository whose correctness is hardest to see by reading,
with proofs. `dafny verify dfyconfig.toml` checks everything.

| part | files |
|---|---|
| Gray code, Gray counter, two-clock FIFO | `Gray`, `GrayCounter`, `AsyncFifoModel`, `AsyncFifo` |
| Synchronous FIFOs | `BoundedQueue`, `SyncFifo` |
| NVMe controller (NVM Express 1.1): T10 checksum, PRP walk, rings, queues, both together | `T10Crc`, `NvmePrp`, `NvmeRings`, `NvmeQueues`, `NvmeQueueRuns`, `NvmeController`, `NvmeAdmin`, `NvmeLoop`, `NvmeOutcomes`, `NvmeProgress`, `NvmeChannels` |
| Fast Transmitter DMA on the E-bone | `FtDma`, `FtDmaRuns`, `FtDmaTransfer`, `FtDmaClosing`, `FtDmaLines`, `FtDmaTheorems`, `FtDmaEngine` |
| PCIe forwarding between the emulated machine and the simulated device | `PcieFrames`, `PcieForward` |
| The glue's two threads | `GlueFifo`, `Glue`, `GlueContents`, `GlueProgress`, `GlueQueues` |
| Counters kept modulo a ring size | `Modular` |

**How it is built.** Each block is a step function on a state, written branch for branch after the
source, beside histories (words accepted, commands fetched, completions posted, words on each bus)
that only specifications look at. Invariants over single steps give theorems over all runs. Where the
source updates registers or lists in place there is a class or a method with the same fields, branches
and loops, proved to make exactly the step of the specification.

**Two-clock FIFO.** Events are a write edge, a read edge, or both at once. On coincident edges every bit
of a sampled Gray pointer may be old or new. `AsyncFifoModel` works on unbounded counters;
`AsyncFifo.Device` has the registers of the entity, pointers of finite width and Gray codes included,
and each of its edges is a step of the model.

**NVMe.** `NvmeRings` is the closed loop of a controller and a host that polls by phase tag and refills
only slots reported free; `NvmeChannels` shows it to be channels without indices, memory or tags. In `NvmeQueues` and its companions the host is arbitrary: requests move
between lists, I/O ends in any order with any result, and queues come and go. Both conservation laws
are permutations: the three lists of a queue together are its request array, and its outstanding,
waiting and answered commands together are the commands it fetched. The requests that the source keeps
in linked lists are sequences in the fields of a queue, and the controller's queue arrays are maps.
The code lets through queue identifiers beyond its arrays and a contiguous ring of 65536 entries; the flag
`broken` records that, and nothing is said of the code from then on. `NvmeLoop` runs both models as one: commands
come from the rings that the host fills, completions go to the rings that it polls, and the doorbells it
writes are those the controller decodes. `NvmeProgress` shows that both get their work done: a measure
falls with everything they do, and somebody can always do something until nothing is left to do.
`NvmeOutcomes` follows what became of a command to the completion that the host takes, and `NvmeAdmin`
what the admin queue reads to the queues that come and go.

**Fast Transmitter.** `FtDma` has the whole control state machine, error, FIFO and message states
included, the source bus master, the registers and the end-of-run detectors, clocked together. The
record of a transfer is taken from the lines of the two buses: a data phase is a clock in which the bus is
held after an address phase, a burst ends where an end of frame is driven. `FtDmaLines` says of each
line, in every mode, when it is driven, and of each wait what ends it. The transfer theorems are about descriptor #0 in plain memory mode with 64-bit words and without bus
errors; `FtDmaClosing.OrderlyStep`, `SourceHeldStep`, `GoClearedAfterRun` and `GoClearedOnReturn` hold
for every input in every mode. Answers of arbiters and slaves are inputs of each cycle.

**Forwarding and glue.** Streams are byte sequences, sends are whole frames; over every run they amount
to the exchange of messages without bytes that `PcieForward.Exchanged` describes. The glue's threads are
interleaved at every access to shared memory; a critical section is one step and memory is sequentially
consistent. `GlueQueues` keeps the two queues as linked lists whose contents are those of `Glue` after
every step; `GlueContents` and `GlueProgress` show that every access and every write arrives, as it was made.

**What turned out to differ from the comments or the expected behaviour**, kept as the code has it and
stated exactly:

- `wr_afull` misses the case in which the low bits of the synchronised read pointer are zero
  (`AsyncFifo.AlmostFullFlagExact`); a FIFO of depth 8 comes to such a state with seven writes and one
  read (`AsyncFifo.AlmostFullMissed`).
- The moved-word status of a DMA transfer is one too high when its last burst is a single word
  (`FtDmaTheorems.StatusExact`; five words in payloads of four, `FtDmaTheorems.StatusOffByOne`).
- The source address of a burst loses its two low bits (`FtDmaTheorems.SourceAddressesExact`; eight words
  in payloads of five, `FtDmaTheorems.SourceAddressOff`).
- Rounding a length up to whole pages can leave 32 bits in the PRP walk, and then unfetched entries are
  used (`NvmePrp.OldContentIrrelevant`). The only caller that gets there is `nvme_rw` with extended
  metadata and no transfer limit (`mdts=0`), for a length within one page of 4 GiB.
- A PRP list that starts inside a page is read past the end of that page instead of being followed to the
  next one (`NvmePrp.MapAgreesExactly`).
- Creating a completion queue whose PRP list cannot be read reports success without creating it
  (`NvmeQueueRuns.CreateCqExact`).
- A queue with an identifier beyond the number of queues passes the checks and is stored outside the
  arrays, since the test that it is not in use yet is the test that it is not valid
  (`NvmeQueueRuns.CreateSqExact`, `NvmeQueueRuns.CreateCqExact`).
- With `entries=0xffff` a contiguous ring of zero-based size 0xFFFF is accepted and its size stored as zero
  (`NvmeQueueRuns.CreateSqExact`, `NvmeQueueRuns.SixteenBitSize`).
- Doorbell strides 11 and 12 are accepted but their doorbells are not understood
  (`NvmeController.StridesThatDivide`). The register window does not grow with the stride, so that some
  doorbells already lie outside it for smaller ones: with the default of 64 queues, from stride 4 on
  (`NvmeController.AllUsableExactly`, `NvmeController.StridesThatFit`).
- A queue of the highest weight, 255, gets a burst of 256 that is stored in eight bits as zero: its timer
  fires for ever and nothing is fetched (`NvmeQueues.NoBurst`, `NvmeController.TimerFetches`).
- A read is answered before writes that the simulation queued while the read waited, although the
  simulation queued them before it gave the reply (`Glue.EveryInterleaving`, `Glue.ReplyOvertakesWrite`).

## Model

| member | source | states |
|---|---|---|
| Gray.GrayToBinInverse | src/ebone/src/eb_common/src/fifo_a.vhd:41-52 | `gray2bin` undoes `bin2gray`, for every width |
| Gray.BinToGrayInverse | src/ebone/src/eb_common/src/fifo_a.vhd:86-101 | `bin2gray` undoes `gray2bin`, for every width |
| Gray.IncrementCounts | src/ebone/src/eb_common/src/fifo_a.vhd:291-293 | the ripple increment of a bit vector counts modulo two to its width |
| Gray.SuccessorsDifferInOneBit | src/ebone/src/eb_common/src/fifo_a.vhd:299-300 | the codes of successive pointers, the wrap included, differ in exactly one named bit |
| Gray.CaptureIsOldOrNew | src/ebone/src/eb_common/src/fifo_a.vhd:308-322 | a sampled code, each bit of which may be old or new, is the old code or the new one as a whole |
| Gray.DecodeCode | src/ebone/src/eb_common/src/fifo_a.vhd:321-322 | a synchronised code converts back to the count modulo two to the width |
| GrayCounter.OneCellToggles | src/ebone/src/eb_common/src/gray_counter.vhd:37-51 | when `par` is the parity of `q`, the cell that toggles is the one that a binary increment of the decoded value would change, and no other |
| GrayCounter.EnabledEdgeCounts | src/ebone/src/eb_common/src/gray_counter.vhd:106-143 | one enabled edge flips one bit, restores the parity invariant and yields the code of the next binary value |
| GrayCounter.TracksBinaryCounter | src/ebone/src/eb_common/src/gray_counter.vhd:106-143 | over every enable sequence the decoded counter is the start value plus the number of enabled edges, modulo two to the width |
| GrayCounter.Counter.constructor | src/ebone/src/eb_common/src/gray_counter.vhd:106-143 | the counter starts at its reset value with `par` consistent |
| GrayCounter.Counter.ClockEdge | src/ebone/src/eb_common/src/gray_counter.vhd:106-143 | the registers change as the edge function says, and an enabled edge adds one to the decoded value |
| GrayCounter.ToggleCells | src/ebone/src/eb_common/src/gray_counter.vhd:133-141 | the loop over the cells computes the toggled vector |
| GrayCounter.ResetParity | src/ebone/src/eb_common/src/gray_counter.vhd:106-114 | the loop over the reset value computes its parity |
| AsyncFifoModel.StepKeepsInv | src/ebone/src/eb_common/src/fifo_a.vhd:286-424 | every write edge, read edge or coincident pair keeps the order of the pointer copies, the memory and the output register right |
| AsyncFifoModel.NothingLostNothingRepeated | src/ebone/src/eb_common/src/fifo_a.vhd:217-244 | over every interleaving of the two clocks, words accepted equal words delivered followed by words still held |
| AsyncFifoModel.TakenExactly | src/ebone/src/eb_common/src/fifo_a.vhd:341-412 | at every edge, coincident ones included, a word is accepted exactly when written with `wr_full` low and taken out exactly when read with `rd_empty` low |
| AsyncFifoModel.DeliveredInOrder | src/ebone/src/eb_common/src/fifo_a.vhd:217-244 | from reset, accepted words are delivered in order, none lost and none repeated, and at most `ADEPTH` are held |
| AsyncFifoModel.ReadDelivers | src/ebone/src/eb_common/src/fifo_a.vhd:240-244 | the location addressed by the read pointer holds the word last taken, so the registered output is that word |
| AsyncFifoModel.NoSimultaneousAccess | src/ebone/src/eb_common/src/fifo_a.vhd:302-304 | a pending memory write never targets the location being read |
| AsyncFifoModel.FlagsAreSafe | src/ebone/src/eb_common/src/fifo_a.vhd:334-344 | not full means a free slot, not empty means the next word is readable, for any staleness of the synchronised pointers |
| AsyncFifoModel.CountsAreSafe | src/ebone/src/eb_common/src/fifo_a.vhd:346-353 | `wr_cnt` never under-reports and `rd_cnt` never over-reports the occupancy just before its edge, without aliasing |
| AsyncFifoModel.SynchronisedPointersAreMonotone | src/ebone/src/eb_common/src/fifo_a.vhd:308-322 | each synchronised pointer only grows and never passes the true one |
| AsyncFifoModel.EmptyBecomesExact | src/ebone/src/eb_common/src/fifo_a.vhd:376-410 | once writes stop, one write edge and three read edges make `rd_empty` exact |
| AsyncFifoModel.FullBecomesExact | src/ebone/src/eb_common/src/fifo_a.vhd:308-339 | once reads stop, one read edge and three write edges make `wr_full` exact |
| AsyncFifoModel.EverythingDrains | src/ebone/src/eb_common/src/fifo_a.vhd:376-410 | from every reachable state, after one write edge without a write, reading at every edge gives out all accepted words within four edges more than words are held |
| AsyncFifo.FullFlagExact | src/ebone/src/eb_common/src/fifo_a.vhd:334-339 | the full comparison on pointer bits holds exactly when one whole turn separates the counts |
| AsyncFifo.EmptyFlagsExact | src/ebone/src/eb_common/src/fifo_a.vhd:391-407 | the empty and almost-empty comparisons hold exactly at zero and one readable words |
| AsyncFifo.AlmostFullFlagExact | src/ebone/src/eb_common/src/fifo_a.vhd:326-332 | the almost-full comparison holds exactly when one slot is left and the low bits of the synchronised read pointer are not all zero |
| AsyncFifo.AlmostFullMissed | src/ebone/src/eb_common/src/fifo_a.vhd:326-332 | a run from reset after which one slot is left and the almost-full flag is low, and one more write fills the FIFO |
| AsyncFifo.CountOutputExact | src/ebone/src/eb_common/src/fifo_a.vhd:352-353 | the occupancy output, computed on truncated pointers, is the true difference |
| AsyncFifo.WriteRegsStep | src/ebone/src/eb_common/src/fifo_a.vhd:217-226 | the registers of the write clock follow the counters of the model on every write edge |
| AsyncFifo.ReadRegsStep | src/ebone/src/eb_common/src/fifo_a.vhd:359-390 | the registers of the read clock follow the counters of the model on every read edge |
| AsyncFifo.CaptureResolves | src/ebone/src/eb_common/src/fifo_a.vhd:308-319 | on coincident edges any per-bit capture of the other pointer is one of the two choices of the model |
| AsyncFifo.Device.constructor | src/ebone/src/eb_common/src/fifo_a.vhd:286-322 | the reset state is an initial state of the model, for every address width of at least three |
| AsyncFifo.Device.OnWriteEdge | src/ebone/src/eb_common/src/fifo_a.vhd:217-239 | a write edge of the register-level device is a write step of the model |
| AsyncFifo.Device.OnReadEdge | src/ebone/src/eb_common/src/fifo_a.vhd:240-244 | a read edge of the register-level device is a read step of the model |
| AsyncFifo.Device.OnBothEdges | src/ebone/src/eb_common/src/fifo_a.vhd:308-319 | coincident edges with arbitrary per-bit captures are a step of the model |
| AsyncFifo.Device.WrCount | src/ebone/src/eb_common/src/fifo_a.vhd:352-353 | the output is the model's write-side count |
| AsyncFifo.Device.RdCount | src/ebone/src/eb_common/src/fifo_a.vhd:423-424 | the output is the model's read-side count |
| BoundedQueue.FirstInFirstOut | src/ebone/src/eb_common/src/fifo_s.vhd:81-95 | the reference queue: words in equal words out followed by words held, and never more than the depth |
| BoundedQueue.Fills | src/ebone/src/eb_common/src/fifo_s.vhd:81-95 | of the words offered at consecutive edges, just those for which there is room are kept, in order |
| BoundedQueue.Drains | src/ebone/src/eb_common/src/fifo_s.vhd:81-95 | reading at consecutive edges gives out the words held, oldest first, and then nothing |
| BoundedQueue.Streams | src/ebone/src/eb_common/src/fifo_s.vhd:81-95 | written and read at every edge, a queue neither full nor empty takes every word and gives out one each time |
| SyncFifo.RingFlags | src/ebone/src/eb_common/src/fifo_s.vhd:140-200 | the pointer comparisons of the ring mean depth minus one, one, and the number of words |
| SyncFifo.MemorisedFlagsFollow | src/ebone/src/eb_common/src/fifo_s.vhd:146-195 | the set/clear rules keep the memorised full and empty flags equal to the true conditions |
| SyncFifo.RingAccess | src/ebone/src/eb_common/src/fifo_s.vhd:81-95 | the ring memory holds the queue, also when a word is read in the cycle its slot is written |
| SyncFifo.RingFifo.ClockEdge | src/ebone/src/eb_common/src/fifo_s.vhd:81-214 | one clock of the memory ring is one edge of the queue, and the word popped in the cycle before appears |
| SyncFifo.RingFifo.Outputs | src/ebone/src/eb_common/src/fifo_s.vhd:137-214 | flags and count are those of the queue |
| SyncFifo.ShiftedRight | src/ebone/src/eb_common/src/fifo_srl.vhd:75-83 | shifting keeps the words newest first |
| SyncFifo.ShiftFifo.Shift | src/ebone/src/eb_common/src/fifo_srl.vhd:75-83 | the shift loop moves every word up by one and enters the new one |
| SyncFifo.ShiftFifo.ClockEdge | src/ebone/src/eb_common/src/fifo_srl.vhd:75-204 | one clock of the shift register is one edge of the queue, and a popped word appears at once |
| SyncFifo.ShiftFifo.Outputs | src/ebone/src/eb_common/src/fifo_srl.vhd:136-204 | flags and count are those of the queue |
| SyncFifo.Lockstep | src/ebone/src/eb_common/src/fifo_s.vhd:81-214 | on the same inputs both FIFOs show the same flags and counts in every cycle, and the ring shows each popped word exactly one clock after the shift register |
| T10Crc.TableIsShift | qemu/03e94e39ce5259efdbdeefa1f249ddb499d57321/01_nvme.patch:3026-3059 | every entry of the table is eight polynomial shifts of its index |
| T10Crc.ByteStepIsSerial | qemu/03e94e39ce5259efdbdeefa1f249ddb499d57321/01_nvme.patch:3063-3071 | one table step equals eight bit-serial steps |
| T10Crc.CrcT10Dif | qemu/03e94e39ce5259efdbdeefa1f249ddb499d57321/01_nvme.patch:3063-3071 | the loop computes the bit-serial CRC with polynomial 0x8BB7 of the whole buffer |
| T10Crc.ChecksumLinear | qemu/03e94e39ce5259efdbdeefa1f249ddb499d57321/01_nvme.patch:3063-3071 | checksums of equal-length buffers add: the checksum of an exclusive-or is the exclusive-or of the checksums |
| NvmePrp.MapAgreesExactly | qemu/03e94e39ce5259efdbdeefa1f249ddb499d57321/01_nvme.patch:226-291 | for all pointers and lengths: the code gives the scatter list that the chained entries mean, for all memories and all old buffer contents, exactly when a pointer is null, or the length needs no list, or the list is page-aligned or fits before the end of its page and the rounding up stays within 32 bits |
| NvmePrp.MapShape | qemu/03e94e39ce5259efdbdeefa1f249ddb499d57321/01_nvme.patch:226-291 | whatever the list, when the code succeeds the segments cover `len`, start at `prp1`, the first stays in its page and the rest are page-aligned and within a page |
| NvmePrp.OldContentIrrelevant | qemu/03e94e39ce5259efdbdeefa1f249ddb499d57321/01_nvme.patch:247-267 | no result depends on what the entry buffer held before, exactly when a pointer is null or the rounding up of the length does not leave 32 bits |
| NvmePrp.WalkReadsReachable | qemu/03e94e39ce5259efdbdeefa1f249ddb499d57321/01_nvme.patch:254-278 | the walk looks at no entry beyond those its length needs |
| NvmePrp.MapPrp | qemu/03e94e39ce5259efdbdeefa1f249ddb499d57321/01_nvme.patch:226-291 | the method, with its in-place entry buffer, computes the mapping function |
| NvmePrp.WalkList | qemu/03e94e39ce5259efdbdeefa1f249ddb499d57321/01_nvme.patch:254-278 | the `while` loop terminates and appends exactly the segments of the walk |
| NvmePrp.DmaRead | qemu/03e94e39ce5259efdbdeefa1f249ddb499d57321/01_nvme.patch:253 | the buffer receives the fetched entries and keeps the rest |
| NvmeRings.PollIsExact | qemu/03e94e39ce5259efdbdeefa1f249ddb499d57321/01_nvme.patch:142-149 | the host sees a completion exactly when one is posted and unread, and it is the right one |
| NvmeRings.CqFullExact | qemu/03e94e39ce5259efdbdeefa1f249ddb499d57321/01_nvme.patch:156-159 | the full test means that every slot but one holds an unreleased completion |
| NvmeRings.SqEmptyExact | qemu/03e94e39ce5259efdbdeefa1f249ddb499d57321/01_nvme.patch:161-164 | the empty test means that every command covered by the doorbell was fetched |
| NvmeRings.PostKeeps | qemu/03e94e39ce5259efdbdeefa1f249ddb499d57321/01_nvme.patch:345-361 | a completion is only written over an entry that the host released |
| NvmeRings.FetchKeeps | qemu/03e94e39ce5259efdbdeefa1f249ddb499d57321/01_nvme.patch:1711-1720 | the controller fetches commands in the order they were submitted |
| NvmeRings.SubmitKeeps | qemu/03e94e39ce5259efdbdeefa1f249ddb499d57321/01_nvme.patch:151-154 | a host that refills slots reported free never overwrites an unfetched command |
| NvmeRings.StepKeepsInv | qemu/03e94e39ce5259efdbdeefa1f249ddb499d57321/01_nvme.patch:1868-1931 | every step of host or controller, across all queues, keeps rings, doorbells and reported heads consistent |
| NvmeRings.ClosedLoop | qemu/03e94e39ce5259efdbdeefa1f249ddb499d57321/01_nvme.patch:325-371 | over every run: completions are consumed exactly as posted, commands fetched exactly as submitted, and unread entries are intact in memory |
| NvmeRings.FromCreatedRings | qemu/03e94e39ce5259efdbdeefa1f249ddb499d57321/01_nvme.patch:1084-1094 | the same for every run that starts from rings as they are created |
| NvmeChannels.RingsAreChannels | qemu/03e94e39ce5259efdbdeefa1f249ddb499d57321/01_nvme.patch:325-371 | with every step of host and controller the rings do what channels of commands and answers with plain counts do, under the same conditions |
| NvmeChannels.RunsAreChannels | qemu/03e94e39ce5259efdbdeefa1f249ddb499d57321/01_nvme.patch:325-371 | the same over every run |
| NvmeChannels.HostActs | qemu/03e94e39ce5259efdbdeefa1f249ddb499d57321/01_nvme.patch:1868-1932 | what the host does in the joint system is a step of the channels |
| NvmeChannels.CqOpens | qemu/03e94e39ce5259efdbdeefa1f249ddb499d57321/01_nvme.patch:1211-1240 | a completion queue comes into being exactly when its identifier is free and in range and its ring is cleared and of a size that sixteen bits hold |
| NvmeChannels.SqOpens | qemu/03e94e39ce5259efdbdeefa1f249ddb499d57321/01_nvme.patch:1084-1139 | the same for a submission queue of an existing completion queue |
| NvmeQueues.StartKeeps | qemu/03e94e39ce5259efdbdeefa1f249ddb499d57321/01_nvme.patch:1723-1728 | fetching a command moves one request from free to outstanding and keeps both conservation laws |
| NvmeQueues.CompleteKeepsQueue | qemu/03e94e39ce5259efdbdeefa1f249ddb499d57321/01_nvme.patch:373-381 | completing moves one request from outstanding to waiting and keeps both conservation laws |
| NvmeQueues.PostKeepsQueue | qemu/03e94e39ce5259efdbdeefa1f249ddb499d57321/01_nvme.patch:345-361 | posting moves one request back to free and answers one command |
| NvmeQueues.BurstValues | qemu/03e94e39ce5259efdbdeefa1f249ddb499d57321/01_nvme.patch:1115-1130 | a weight fetches one command more than it says, and none for 255; an urgent queue fetches a power of two |
| NvmeQueueRuns.PostAllInOrder | qemu/03e94e39ce5259efdbdeefa1f249ddb499d57321/01_nvme.patch:336-367 | waiting completions are posted first come first served, each to the queue of its command |
| NvmeQueueRuns.PostAllKeeps | qemu/03e94e39ce5259efdbdeefa1f249ddb499d57321/01_nvme.patch:325-371 | posting stops with nothing waiting or a full ring, and changes nothing else |
| NvmeQueueRuns.DeleteSqKeeps | qemu/03e94e39ce5259efdbdeefa1f249ddb499d57321/01_nvme.patch:1049-1081 | deleting succeeds exactly for a live I/O queue and is otherwise refused with status 0x4101; afterwards no completion queue lists it or holds one of its requests |
| NvmeQueueRuns.DeleteCqExact | qemu/03e94e39ce5259efdbdeefa1f249ddb499d57321/01_nvme.patch:1193-1208 | a completion queue is freed exactly when it exists, is not the admin queue and no live submission queue names it; the statuses of the refusals |
| NvmeQueueRuns.AddSqKeeps | qemu/03e94e39ce5259efdbdeefa1f249ddb499d57321/01_nvme.patch:1107-1136 | a created submission queue owns all its requests and is listed once by a live completion queue |
| NvmeQueueRuns.CreateSqExact | qemu/03e94e39ce5259efdbdeefa1f249ddb499d57321/01_nvme.patch:1141-1177 | which status answers, for every field value; success exactly when every check passes; the queue then has one more entry than the zero-based size and nothing else changes; the arrays are left exactly when the identifier is not below the number of queues or a contiguous ring has the size 0xFFFF; the burst is zero exactly for the weight 255 |
| NvmeQueueRuns.CreateCqExact | qemu/03e94e39ce5259efdbdeefa1f249ddb499d57321/01_nvme.patch:1237-1271 | the same for a completion queue, which appears only when its ring can be read, while success is also reported when it cannot |
| NvmeQueueRuns.AdminKeeps | qemu/03e94e39ce5259efdbdeefa1f249ddb499d57321/01_nvme.patch:1141-1271 | every queue command, with every field value and every error branch, keeps references and requests right |
| NvmeController.FetchLoopKeeps | qemu/03e94e39ce5259efdbdeefa1f249ddb499d57321/01_nvme.patch:1711-1735 | the fetch loop reads consecutive commands in order and stops early only for want of commands or requests |
| NvmeAdmin.TurnCarriesOut | qemu/03e94e39ce5259efdbdeefa1f249ddb499d57321/01_nvme.patch:1664-1673 | a queue command read from the admin queue is carried out: the queue asked for appears with its size, or goes without a trace, or the queues stay as they are; and the status of that answers the command |
| NvmeAdmin.AdminCarriesOut | qemu/03e94e39ce5259efdbdeefa1f249ddb499d57321/01_nvme.patch:1711-1735 | a firing of the admin queue carries out the commands read one by one, in the order of the ring |
| NvmeAdmin.OneCommand | qemu/03e94e39ce5259efdbdeefa1f249ddb499d57321/01_nvme.patch:1711-1735 | with a burst of one, the single command read is carried out and answered |
| NvmeAdmin.DeletedAnswers | qemu/03e94e39ce5259efdbdeefa1f249ddb499d57321/01_nvme.patch:1059-1076 | the commands outstanding in a deleted queue are cancelled, each with the status of its I/O, and are posted behind those that waited as far as the ring has room; the rest of them are dropped |
| NvmeController.TimerFetches | qemu/03e94e39ce5259efdbdeefa1f249ddb499d57321/01_nvme.patch:1711-1740 | a timer that fires with commands to fetch and a request free fetches at least one exactly when the burst of its queue is not zero, and otherwise only sets itself again |
| NvmeController.DoorbellsDecode | qemu/03e94e39ce5259efdbdeefa1f249ddb499d57321/01_nvme.patch:1872-1915 | the doorbells of each queue, at the multiples that section 3.1.10 of NVM Express 1.1 gives them, are understood exactly when their distance divides 0x1000 |
| NvmeController.StridesThatDivide | qemu/03e94e39ce5259efdbdeefa1f249ddb499d57321/01_nvme.patch:1872-1876 | which holds exactly for strides up to 10, although 12 is accepted |
| NvmeController.AllUsableExactly | qemu/03e94e39ce5259efdbdeefa1f249ddb499d57321/01_nvme.patch:2140 | the doorbells of all queues arrive and are understood exactly when the stride is at most 10 and the last of them lies inside the register window |
| NvmeController.WindowExact | qemu/03e94e39ce5259efdbdeefa1f249ddb499d57321/01_nvme.patch:2140 | the register window is the least power of two that exceeds its registers |
| NvmeController.TailTakenExactly | qemu/03e94e39ce5259efdbdeefa1f249ddb499d57321/01_nvme.patch:1911-1931 | a tail doorbell is taken exactly when its queue exists and the value, cut to 16 bits, is inside the ring; nothing else changes |
| NvmeController.HeadTakenExactly | qemu/03e94e39ce5259efdbdeefa1f249ddb499d57321/01_nvme.patch:1878-1910 | the same for a head doorbell; exactly a ring that was full wakes itself and every submission queue it lists |
| NvmeController.StridesThatFit | qemu/03e94e39ce5259efdbdeefa1f249ddb499d57321/01_nvme.patch:2140 | which holds for every number of queues without a stride, and for 64 queues exactly for strides up to 3 |
| NvmeController.StepKeeps | qemu/03e94e39ce5259efdbdeefa1f249ddb499d57321/01_nvme.patch:1868-1931 | timers, I/O callbacks and doorbells of any value keep requests, references, wake-ups and the statuses of what became of the commands right |
| NvmeController.RequestInOnePlace | qemu/03e94e39ce5259efdbdeefa1f249ddb499d57321/01_nvme.patch:1107-1113 | every element of a request array is in exactly one of the three lists |
| NvmeController.CommandAnsweredOnce | qemu/03e94e39ce5259efdbdeefa1f249ddb499d57321/01_nvme.patch:336-361 | every fetched command is outstanding, waiting or answered, once, and answered with its own identifier |
| NvmeController.DrainedMeansAnswered | qemu/03e94e39ce5259efdbdeefa1f249ddb499d57321/01_nvme.patch:1711-1735 | with nothing outstanding or waiting, answers and fetched commands correspond one to one |
| NvmeController.EveryRunIsSound | qemu/03e94e39ce5259efdbdeefa1f249ddb499d57321/01_nvme.patch:1737-1740 | over every run from start-up that has not left the arrays: conservation, references, and no waiting work without an armed timer or a full ring; and runs whose creation commands have fitting identifiers and sizes never leave them |
| NvmeController.BrokenStays | qemu/03e94e39ce5259efdbdeefa1f249ddb499d57321/01_nvme.patch:1141-1271 | what has left the arrays is known to have at the end of the run |
| NvmeController.Controller.constructor | qemu/03e94e39ce5259efdbdeefa1f249ddb499d57321/01_nvme.patch:1794-1798 | the controller starts with the two admin queues |
| NvmeController.Controller.PostCqes | qemu/03e94e39ce5259efdbdeefa1f249ddb499d57321/01_nvme.patch:336-361 | the loop posts exactly what the specification posts, each entry with its identifier, submission queue, head pointer, status and phase tag |
| NvmeController.Controller.EnqueueCompletion | qemu/03e94e39ce5259efdbdeefa1f249ddb499d57321/01_nvme.patch:373-381 | the request moves to the completion queue and its timer is armed |
| NvmeController.Controller.ProcessSq | qemu/03e94e39ce5259efdbdeefa1f249ddb499d57321/01_nvme.patch:1700-1741 | the timer callback fetches its burst and re-arms itself if commands remain |
| NvmeController.Controller.DeleteSq | qemu/03e94e39ce5259efdbdeefa1f249ddb499d57321/01_nvme.patch:1049-1081 | cancel, unlink, post, take back and free, in that order |
| NvmeController.Controller.CreateSq | qemu/03e94e39ce5259efdbdeefa1f249ddb499d57321/01_nvme.patch:1141-1177 | the checks in order, each with its status, and the new queue |
| NvmeController.Controller.CreateCq | qemu/03e94e39ce5259efdbdeefa1f249ddb499d57321/01_nvme.patch:1237-1271 | the checks in order, each with its status; an unreadable list still reports success |
| NvmeController.Controller.DeleteCq | qemu/03e94e39ce5259efdbdeefa1f249ddb499d57321/01_nvme.patch:1193-1208 | refused while a submission queue is listed |
| NvmeController.Controller.ProcessDoorbell | qemu/03e94e39ce5259efdbdeefa1f249ddb499d57321/01_nvme.patch:1868-1932 | doorbells change head or tail only within the ring, and wake what a full ring held back |
| NvmeLoop.FetchTurnsIsLoop | qemu/03e94e39ce5259efdbdeefa1f249ddb499d57321/01_nvme.patch:1711-1728 | fed from the rings in memory, the fetch loop of the controller reads the commands that the host wrote there, in order |
| NvmeLoop.StepKeeps | qemu/03e94e39ce5259efdbdeefa1f249ddb499d57321/01_nvme.patch:1700-1741 | every step of controller or host keeps the registers, rings and histories of both models the same, and every answer posted in the ring of its queue |
| NvmeLoop.ControllerStep | qemu/03e94e39ce5259efdbdeefa1f249ddb499d57321/01_nvme.patch:1868-1931 | each such step moves the controller by steps of its own, doorbell addresses included |
| NvmeLoop.InvTakenOnce | qemu/03e94e39ce5259efdbdeefa1f249ddb499d57321/01_nvme.patch:336-361 | each completion that the host has taken answers a submitted command with its own identifier and the status of what became of it, and no command has two |
| NvmeLoop.StillAllTaken | qemu/03e94e39ce5259efdbdeefa1f249ddb499d57321/01_nvme.patch:1737-1740 | when no timer runs, no I/O is outstanding and the host has nothing left to ring or read, it has taken the completion of every command it submitted |
| NvmeLoop.EveryCommandTakenOnce | qemu/03e94e39ce5259efdbdeefa1f249ddb499d57321/01_nvme.patch:325-371 | both, over every run of controller and host together from the creation of the first queue |
| NvmeOutcomes.IoOutcomeReported | qemu/03e94e39ce5259efdbdeefa1f249ddb499d57321/01_nvme.patch:659-676 | when the I/O of a command ends, then whatever happens, the completion that the host takes for it has status 0x0 if the I/O succeeded and 0x6 otherwise |
| NvmeOutcomes.AnswerReported | qemu/03e94e39ce5259efdbdeefa1f249ddb499d57321/01_nvme.patch:1729-1734 | when a command is answered at once, the completion that the host takes for it has that status |
| NvmeProgress.MoveFalls | qemu/03e94e39ce5259efdbdeefa1f249ddb499d57321/01_nvme.patch:1700-1741 | whatever controller and host do, other than new commands, changes nothing or makes the measure smaller |
| NvmeProgress.MoveExists | qemu/03e94e39ce5259efdbdeefa1f249ddb499d57321/01_nvme.patch:1737-1740 | as long as anything is left to do one of them can do something that makes it smaller, unless a queue with commands to fetch has a burst of zero |
| NvmeProgress.MovesAreBounded | qemu/03e94e39ce5259efdbdeefa1f249ddb499d57321/01_nvme.patch:1700-1741 | however they take turns, there are no more steps than the measure says |
| NvmeProgress.StillExactly | qemu/03e94e39ce5259efdbdeefa1f249ddb499d57321/01_nvme.patch:1737-1740 | nothing is left to do exactly when no step changes anything and every queue with commands to fetch has a burst |
| NvmeProgress.EveryCommandIsAnswered | qemu/03e94e39ce5259efdbdeefa1f249ddb499d57321/01_nvme.patch:325-371 | from every reachable state the work comes to an end, and then the host has taken one completion for each command it submitted, exactly when every queue with commands to fetch had a burst |
| NvmeProgress.EndReached | qemu/03e94e39ce5259efdbdeefa1f249ddb499d57321/01_nvme.patch:325-371 | and that end can always be reached |
| FtDmaRuns.CoreStep | src/ebone/src/ebm_ebft/src/ebftm_ft.vhd:398-545 | every cycle of an error-free transfer keeps both state machines in lockstep and the burst, word and end counters right |
| FtDmaTheorems.SourceIdleBeforeRequest | src/ebone/src/ebm_ebft/src/ebftm_mx.vhd:158-166 | in every cycle of every transfer in which a burst is about to be requested, the source master is idle and has released its bus |
| FtDmaRuns.ProgressStep | src/ebone/src/ebm_ebft/src/ebftm_ft.vhd:398-619 | every cycle that is not a stall or a refusal decreases the measure |
| FtDmaTransfer.ContentStep | src/ebone/src/ebm_ebft/src/ebftm_mx.vhd:252-257 | each word on the first bus is the word of the same number sampled from the second |
| FtDmaTransfer.PhasedStep | src/ebone/src/ebm_ebft/src/ebftm_ft.vhd:456-545 | address phases, data phases and ends of frame on the lines follow the states, and a broadcast is driven for two clocks |
| FtDmaTransfer.TiledStep | src/ebone/src/ebm_ebft/src/ebftm_ft.vhd:685-699 | each finished burst extends the tiling of the destination, at the address strobed for it |
| FtDmaTransfer.SourcedStep | src/ebone/src/ebm_ebft/src/ebftm_ft.vhd:781-812 | one source address is issued for each burst |
| FtDmaTheorems.InvStep | src/ebone/src/ebm_ebft/src/ebftm_ft.vhd:398-619 | all of this together is kept by every cycle |
| FtDmaTheorems.TransferIsRight | src/ebone/src/ebm_ebft/src/ebftm_ft.vhd:334-619 | for all word counts, payloads, stalls, refusals and retries: a finished transfer carried exactly the sampled words, in bursts that tile the destination and end with an end of frame each, with one broadcast of two clocks, and left the GO bit clear |
| FtDmaTheorems.TransferEnds | src/ebone/src/ebm_ebft/src/ebftm_ft.vhd:398-619 | with finitely many stalls and refusals the transfer returns to `iddle`, in a number of cycles linear in the word count |
| FtDmaTheorems.UndisturbedTransfer | src/ebone/src/ebm_ebft/src/ebftm_ft.vhd:334-619 | with buses granted and answers given at once, every transfer is carried out, in a number of cycles linear in the word count |
| FtDmaTheorems.WrittenTransfer | src/ebone/src/ebm_ebft/src/ebftm_regs.vhd:200-232 | writing 1 to the GO bit of an idle engine is enough for a whole undisturbed transfer |
| FtDmaTheorems.SplitTotal | src/ebone/src/ebm_ebft/src/ebftm_ft.vhd:826-837 | the bursts of a transfer hold all its words |
| FtDmaTheorems.SplitShape | src/ebone/src/ebm_ebft/src/ebftm_ft.vhd:685-699 | each burst is a full payload or all that remains, and starts where the one before ended |
| FtDmaTheorems.StatusExact | src/ebone/src/ebm_ebft/src/ebftm_ft.vhd:839-844 | the moved-word status is the word count exactly when the last burst is not a single word; otherwise it is one more |
| FtDmaTheorems.StatusOffByOne | src/ebone/src/ebm_ebft/src/ebftm_ft.vhd:839-844 | five words in payloads of four: every undisturbed transfer moves five words and reports six |
| FtDmaTheorems.SourceAddressesExact | src/ebone/src/ebm_ebft/src/ebftm_mx.vhd:115-119 | the issued source addresses are exact exactly when the source offset and, for several bursts, the payload are multiples of four |
| FtDmaTheorems.SourceAddressOff | src/ebone/src/ebm_ebft/src/ebftm_mx.vhd:115-119 | eight words in payloads of five: every undisturbed transfer issues the address of word 4 for the burst that starts with word 5 |
| FtDmaClosing.OrderlyStep | src/ebone/src/ebm_ebft/src/ebftm_ft.vhd:255-264 | for every input, errors and all modes included, `run0` and `run1` are never both set and the bus request follows the state |
| FtDmaClosing.SourceHeldStep | src/ebone/src/ebm_ebft/src/ebftm_mx.vhd:121-139 | for every input the source bus is requested exactly from request to last cycle |
| FtDmaClosing.GoClearedAfterRun | src/ebone/src/ebm_ebft/src/ebftm_regs.vhd:200-232 | for every input and host write, the GO bit of a run is clear three cycles after the run is ended, by a broadcast, an abort or a reset |
| FtDmaClosing.GoClearedOnReturn | src/ebone/src/ebm_ebft/src/ebftm_regs.vhd:200-232 | for every input and host write, a transfer that nothing follows, ended by its broadcast or by an abort that was asked for, leaves the engine asleep three cycles later with its GO bit clear |
| FtDmaClosing.ClosingStep | src/ebone/src/ebm_ebft/src/ebftm_ft.vhd:565-619 | one broadcast, the final status and the end-of-run detector follow the states |
| FtDmaClosing.LinkedFollows | src/ebone/src/ebm_ebft/src/ebftm_ft.vhd:600-612 | after the broadcast of a linked descriptor the other one is taken when its GO bit is set, and its first burst is aimed at its own destination, source and payload |
| FtDmaClosing.WakesExactly | src/ebone/src/ebm_ebft/src/ebftm_ft.vhd:335-359 | for every input, when the engine leaves `iddle` and the two waiting states, and for which state |
| FtDmaClosing.FatalExactly | src/ebone/src/ebm_ebft/src/ebftm_ft.vhd:428-530 | for every input, which bus errors end a run and which are retried |
| FtDmaClosing.ErrorReleases | src/ebone/src/ebm_ebft/src/ebftm_ft.vhd:621-634 | for every input, two cycles after a fatal error both buses are released and no run flag is set; the end is an abort status or a broadcast |
| FtDmaLines.LinesExactly | src/ebone/src/ebm_ebft/src/ebftm_ft.vhd:334-666 | for every configuration and input: each request, strobe, end of frame, broadcast and counter line is driven in exactly the states and transitions named for it |
| FtDmaLines.FrameEndsExactly | src/ebone/src/ebm_ebft/src/ebftm_ft.vhd:507-535 | for every input, what ends a data phase: a fault, the payload or the descriptor used up, a FIFO that is flushed, or a FIFO that runs dry |
| FtDmaLines.BurstFollowsExactly | src/ebone/src/ebm_ebft/src/ebftm_ft.vhd:547-567 | for every input, what follows a burst: the end of the descriptor, another burst, or a wait for the FIFO or the message channel |
| FtDmaLines.BegunExactly | src/ebone/src/ebm_ebft/src/ebftm_ft.vhd:361-396 | for every input, when a descriptor asks for the bus, waits for its message or FIFO, or is aborted while it waits |
| FtDmaLines.MessageAnswered | src/ebone/src/ebm_ebft/src/ebftm_ft.vhd:377-385 | for every input, the four waits for a message channel end exactly with its answer; an error at the start or the end of a message ends the run |
| FtDmaLines.ChannelsAlone | src/ebone/src/ebm_ebft/src/ebftm_ft.vhd:636-664 | without a message channel neither the end of a descriptor nor an abort waits, and a reset runs for a message descriptor alone |
| FtDmaLines.SourceMasterExactly | src/ebone/src/ebm_ebft/src/ebftm_mx.vhd:158-246 | for every input, when the source master asks for its bus, addresses, reads, sends a message of two words or one, gives up, and releases the bus |
| FtDmaLines.MessageTakenExactly | src/ebone/src/ebm_ebft/src/ebftm_mx.vhd:212-222 | the transmitter is told that a message was taken exactly when the source master comes to rest after its last word |
| FtDmaLines.ModesTaken | src/ebone/src/ebm_ebft/src/ebftm_ft.vhd:335-359 | a run takes the FIFO and message modes of its own descriptor |
| FtDmaLines.StatusCopied | src/ebone/src/ebm_ebft/src/ebftm_ft.vhd:839-844 | the count of moved words is copied to the status of the descriptor that runs, and the other status keeps its value |
| FtDmaEngine.FastTransmitter.Clock | src/ebone/src/ebm_ebft/src/ebftm_ft.vhd:234-288 | the registers change as the cycle function says |
| FtDmaEngine.SourceMaster.Clock | src/ebone/src/ebm_ebft/src/ebftm_mx.vhd:127-139 | the source master's registers change as the cycle function says |
| FtDmaEngine.GoBits.Clock | src/ebone/src/ebm_ebft/src/ebftm_regs.vhd:200-232 | the detectors and GO bits change as the cycle function says, clearing before writing |
| FtDmaEngine.Engine.Clock | src/ebone/src/ebm_ebft/src/ebftm_ft.vhd:234-288 | one edge of the three parts is one cycle of the system |
| FtDmaEngine.Engine.ClockTransfer | src/ebone/src/ebm_ebft/src/ebftm_ft.vhd:334-619 | an edge of an error-free transfer keeps the invariant |
| PcieFrames.MsgRoundTrip | src/pcie/pcie_net.h:92-97 | parsing undoes serialising on any stream, and a message is never taken for a reply |
| PcieFrames.ReplyRoundTrip | src/pcie/pcie_net.h:99-103 | the same for replies, which are always told apart by their size |
| PcieFrames.NextItem | qemu/03e94e39ce5259efdbdeefa1f249ddb499d57321/00_pciefw.patch:149-163 | the next frame of a stream is its first item |
| PcieFrames.RecvBuf | qemu/03e94e39ce5259efdbdeefa1f249ddb499d57321/00_pciefw.patch:138-165 | the two-step receive fills the buffer with exactly one frame; of a frame that is too big it has consumed the header and nothing else |
| PcieFrames.DeviceRecvBuf | src/pcie/pcie_net.c:206-233 | the device does the same but leaves the header bytes of its buffer alone |
| PcieFrames.ParseIgnoresHeader | src/pcie/pcie_net.c:206-233 | which parsing does not look at |
| PcieFrames.RecvReply | qemu/03e94e39ce5259efdbdeefa1f249ddb499d57321/00_pciefw.patch:196-243 | the waiting loop applies the messages before the reply, in order, and returns that reply |
| PcieFrames.NarrowModulo | qemu/03e94e39ce5259efdbdeefa1f249ddb499d57321/00_pciefw.patch:323-330 | the value handed to the guest is the device's value modulo the access width |
| PcieForward.StepKeeps | src/pcie/pcie.c:174-235 | every step of machine or device keeps streams, requests and replies matched |
| PcieForward.StepViewed | src/pcie/pcie.c:174-235 | every step on the byte streams is the step of an exchange of messages, in which exactly configuration, memory and I/O reads wait and are answered |
| PcieForward.BytesDoNotMatter | qemu/03e94e39ce5259efdbdeefa1f249ddb499d57321/00_pciefw.patch:196-243 | over every run both ends see what that exchange gives them: nothing is dropped, added or taken for something else |
| PcieForward.ReadsAreAnswered | src/pcie/pcie.c:186-234 | over every run, completed reads are the configuration, memory and I/O reads sent, in order, each with the reply to that very request |
| PcieForward.ReadReturns | qemu/03e94e39ce5259efdbdeefa1f249ddb499d57321/00_pciefw.patch:308-332 | when a read returns, everything that came before its reply on the stream of the device has been applied, in order |
| PcieForward.NoStrayReply | qemu/03e94e39ce5259efdbdeefa1f249ddb499d57321/00_pciefw.patch:478-513 | outside a read no reply is on its way |
| GlueFifo.Fifo.Push | src/pcie/pcie_glue.c:111-120 | the node is linked at the tail |
| GlueFifo.Fifo.Pop | src/pcie/pcie_glue.c:534-541 | the head is unlinked, and the tail cleared with the last node |
| GlueFifo.Fifo.TakeAll | src/pcie/pcie_glue.c:216-220 | the whole chain is taken |
| GlueFifo.Drain | src/pcie/pcie_glue.c:224-230 | a taken chain is sent in order, each node is freed, and none is touched after it was freed |
| GlueFifo.PushThenDrain | src/pcie/pcie_glue.c:111-120 | what is pushed is sent, in order, once |
| GlueQueues.Queues.PushAccess | src/pcie/pcie_glue.c:111-120 | pushing an access onto the linked receive queue is the push step of the rendezvous |
| GlueQueues.Queues.Poll | src/pcie/pcie_glue.c:534-541 | popping it is the poll step, and gives the same access |
| GlueQueues.Queues.TakeWrites | src/pcie/pcie_glue.c:216-220 | taking the linked transmit queue is the step that starts sending |
| GlueQueues.Queues.SendNext | src/pcie/pcie_glue.c:224-230 | each turn of the sending loop is a step, and frees the node it sent |
| Glue.StepSafe | src/pcie/pcie_glue.c:149-180 | every step of either thread touches only allocated nodes and keeps each in exactly one place |
| Glue.NotDoubled | src/pcie/pcie_glue.c:567-573 | the "reply_node != NULL" branch cannot be reached |
| Glue.StepOrdered | src/pcie/pcie_glue.c:522-541 | the simulation sees accesses, and the network gets messages, in the order they were queued |
| Glue.StepAnswered | src/pcie/pcie_glue.c:495-520 | a read is answered with the first reply given after it was popped |
| Glue.StepOvertaken | src/pcie/pcie_net.c:281-300 | a read that returns has sent no write since it began, and what was sent had been queued before it began |
| Glue.EveryInterleaving | src/pcie/pcie_glue.c:149-169 | all of this in every interleaving of the two threads, with at most one read outstanding |
| GlueContents.StepKeepsContents | src/pcie/pcie_glue.c:149-180 | every step keeps the nodes as they were filled, until they are handed over or sent |
| GlueContents.AccessesArrive | src/pcie/pcie_glue.c:522-573 | in every interleaving the simulation gets the accesses that the machine makes, with kind and data, in order and once; the network gets the writes of the simulation likewise; and reads return in order |
| GlueProgress.MoveFalls | src/pcie/pcie_glue.c:149-235 | whatever the threads do, other than new accesses and writes, changes nothing or leaves less to do |
| GlueProgress.RestsExactly | src/pcie/pcie_glue.c:149-235 | they stop exactly when nothing is under way |
| GlueProgress.EverythingArrives | src/pcie/pcie_glue.c:149-235 | after any run they come to rest, and then every access has been got, every write sent and every read returned |
| Glue.ReplyOvertakesWrite | src/pcie/pcie_net.c:281-300 | a run in which the simulation queues a write, then replies, and the read returns with the write unsent |
| Glue.Settled | src/pcie/pcie_glue.c:149-180 | between calls only queued nodes are allocated: none is lost |

## Left out

- AsyncFifo.AlmostFullFlagExact: states exactly when the almost-full flag is raised, which is not whenever one slot is left, because of how the flag is computed.
- NvmeController.Controller.PostCqes: interrupts and their coalescing are not modelled; the entry written is.
- NvmeController.Controller.ProcessDoorbell: error events for bad doorbells and the interrupt of a head doorbell are not modelled.
- NvmeLoop.EveryCommandTakenOnce: queues are created but not deleted, and commands on queues are not among those fetched; creation is a step of its own.
- NvmeProgress.EveryCommandIsAnswered: meanwhile no new command comes, no queue is created or deleted, and the host rings a doorbell only when it has something new to say.
- GlueProgress.EverythingArrives: the push event follows every push, and the simulation polls and replies to every read it gets.
- GlueQueues.Queues.PushAccess: a list node is made as it is pushed; data, replied flag and freeing of received nodes are in `Glue` only.
- NvmeController.DoorbellsDecode: error events for bad doorbells are not queued; such writes change nothing else.
- FtDmaTheorems.TransferIsRight: covers descriptor #0, plain memory mode, no bus error, and ranges that do not wrap around 32-bit destination or 28-bit source addresses.
- Resets: every machine starts in the state its reset leaves; the reset synchronisers are not modelled.
- `fifo_sft`, `fifo_aft`: their read-out machine does not count reads made while it waits for more data.
- Submission and completion rings that are not physically contiguous: only whether their PRP list is accepted, which is an input because `nvme_setup_discontig` looks at a buffer that it never reads from memory.
- Interrupt delivery, coalescing and masking of the NVMe controller.
- NVMe abort, asynchronous events, features, identify, metadata and protection information beyond the checksum.
- The block layer: an I/O ends with success or failure, once, at any time; a cancelled request calls back.
- Linked lists of NVMe requests are sequences and queues are values in maps, so pointer aliasing between a request and its queue is not captured; the linked queue of the glue is modelled with its links.
- The table of the checksum is a function by index, proved entry by entry, rather than an array.
- Fast Transmitter FIFO and message modes: their states and branches are in the control function, but their counters are inputs and no transfer theorem covers them.
- Fast Transmitter almost-end flags, error status bits, the upper half of the destination address, and the 32-bit and 128-bit widths.
- The E-bone core, block RAM and register slaves: their answers are inputs.
- The bus slave that gives access to the DMA registers: a write to a GO bit is an input, descriptors do not change during a transfer.
- The Fast Transmitter slave of the virtual PCIe endpoint and the DMA entity of the earlier design: simulation and synthesis read their sensitivity lists differently.
- The UDP variant of the forwarding protocol, connection set-up, `select`, scheduled tasks and configuration space contents.
- A reply whose frame is shorter than eleven bytes, which no peer sends.
- The stale bar number in forwarded configuration accesses: the bar of such a request is arbitrary.
- Bit-vector conversions between the simulator and the glue, and the size that `pcie_glue_send_write` ignores.
- Thread start-up and shutdown of the glue, and reuse of freed addresses by the allocator: node identities are never reused.
- Kernel drivers, user programs, scripts and documentation.
