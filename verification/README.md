# A model of the Solaris ATA/ATAPI disk driver stack

This project models the driver stack between a disk request and the task file registers of an ATA
controller, and proves what its parts promise to one another. Hardware, DDI calls, clocks and the
order in which threads run are arbitrary inputs everywhere: a theorem speaks about every device and
every interleaving.

## Modules

| module | part of the driver |
|---|---|
| BadBlocks | remapping of bad sectors: binary search, cookies, per-slice index, clipping (`cmdk.c`) |
| AtaDisk | one PIO command: set-up, interrupts, residual, status (`ata_disk.c`) |
| Dadk | chunks, retries and errors of one request (`dadk.c`) |
| Transfer | a request on the driver's objects, end to end |
| WaitQueues | device queues, adapter queue, throttles (`ghd_waitq.c`) |
| Ghd | the locking protocol of the queues as a state machine over threads (`ghd.c`) |
| DoneQueue | done queue, poll mode, software interrupt (`ghd.c`) |
| Timer | timeouts and error recovery (`ghd_timer.c`) |
| Atapi | the ATAPI device state machine and its PIO transfers (`atapi_fsm.c`) |
| Controller | the controller state machine with automatic request sense (`ata_common.c`) |
| Adapter | WaitQueues over Controller: the two notions of an active request agree |
| OneWayScan, FlowControl, QMerge | request schedulers and flow control (`strategy.c`) |
| QMergeScan | which request a pick of QMerge takes: direction, position, priority (`strategy.c`) |
| QMergeNodes | the rings of QMerge as linked buffers, the pick on the driver's own heads and flags (`strategy.c`) |
| LinkedLists | the circular lists, on linked nodes (`ghd_queue.c`) |
| Registers | task file encodings and their inverses (`ata_disk.c`) |
| DmaWindows | walking DMA windows and cookies (`ghd_dma.c`) |
| Options, Seqs | a value that may be missing; lists without duplicates |

Most modules have the same three parts. Operations are functions of a value that stands for the
driver's data structure. Lemmas say what these functions keep, over one step and over whole runs. A
class then has the driver's fields and loops, and its methods are proved to compute the functions
(`ensures View() == F(old(View()))`). A simple definition stands at the root of each main result:
`BadBlocks.Remap` looks up one sector, `AtaDisk.Moves` records what crosses the data port and
`AtaDisk.Acked` what of that the drive acknowledged, `WaitQueues.Placed` says where a request is,
`FlowControl.Fifo` what order means.

## What the proofs found

Where the code and what one expects of it part ways, the code was kept, an input that shows it is a
lemma, and the condition under which the expectation holds is proved in both directions where the
table says "iff".

- A write interrupt that leaves by the busy exit keeps `ap_wrt_count`, and the next clean interrupt
  takes the block off again: the residual is then too small (`AtaDisk.ResidualCondition`,
  `AtaDisk.DoubleCountExample`). So on error a request's residual is exact always for a read, and for a
  write unless its last command went on like that (`Dadk.ErrorResidual`), as it can (`Dadk.WrongResidual`);
  after the retry of a failed command it is always exact (`AtaDisk.OneBlockExact`).
- `ata_disk_pktalloc` is given a restart callback and never registers it. If the allocation fails while
  nothing is outstanding, flow control stalls (`FlowControl.SilentFailureStalls`), and
  stays so over every run without a restart (`FlowControl.StalledForGood`); in quiet states it stalls in
  no other way (`FlowControl.StalledExactly`).
- With two or more outstanding requests a thread can overtake another between `mutex_exit` and the
  transport (`FlowControl.TwoMayPass`), with one it cannot (`FlowControl.InOrderExactly`).
- A request that the drive refuses goes back to the head of the queue when nothing is active, so no
  completion will start it again: only another submission or its timeout does
  (`Adapter.RefusalLeavesIdle`).
- A start refused because the controller stays busy leaves `AP_ERROR` in the packet; requeued and
  served without any error, it is still reported as failed (`Atapi.CleanCommandReports`).
- Data can move before the CDB was sent (`Atapi.DataWithoutCdb`), exactly when the first interrupt that
  is not busy does not ask for it (`Atapi.DataMeansCdb`).
- A done queue with requests on it can have neither pollmode nor a pending software interrupt, for a
  moment (`DoneQueue.NeitherPolledNorPending`, exactly when: `DoneQueue.WindowExactly`); somebody always comes to look
  (`DoneQueue.HandedInOrder`).
- Two software interrupt handlers can report completions in the wrong order
  (`DoneQueue.CallbacksMayPass`); one at a time cannot (`DoneQueue.CallbacksInOrder`).
- A bus reset skipped for a frozen queue is never tried again (`Timer.FrozenResetIsSkipped`).
- The residual after an error is wrong for 256 sectors in 28-bit mode (`Registers.ResidExact`).
- `ghd_dmaget_attr` can return more bytes than it was asked for (`DmaWindows.OverAsked`,
  exactly when: `DmaWindows.WithinAsked`).
- Equal block numbers can break the order of a `qmerge` ring (`QMerge.EqualBlocksBreakTheRing`): exactly
  when a walk stops between two of them (`QMerge.WithKeepsRing`, over runs `QMerge.RingsStay`).
- A `qmerge` pick is not always the nearest ahead: with both rings scanned, a head at the position itself
  hides what is behind it in its ring, as block 0 does at the start (`QMergeScan.BlockZeroIsPassedOver`), and a
  request can join a ring that the scan has passed (`QMergeScan.PassedRingIsPassedOver`, exactly when:
  `QMergeScan.AddAims`). Without these it is (`QMergeScan.PicksNearest`), and with one priority always
  (`QMergeScan.OnePriorityNearest`).
- A slot of the flow control can stay free beside waiting work, but only when a thread that comes back from
  a transport finds the mutex taken (`FlowControl.SlotsUsed`).

Two comments in the source do not describe it. `atapi_fsm.c:508` announces an unsigned last byte, but
`caddr_t` points to signed characters; the model sign-extends. `ata_disk.c:1622-1628` says that the high
16 bits of a 48-bit address are ignored; with a wide enough `daddr_t` the code does load them, and the
model follows the code.

## Model

| member | source | states |
|---|---|---|
| BadBlocks.Bsearch | dktp/disk/cmdk.c:1955-1995 | The strided search returns the first extent whose last bad sector is not before the key, or -1 when there is none; it stays in the table and ends, forward jumps past the end included. |
| BadBlocks.Handle.Htoc | dktp/disk/cmdk.c:1773-1783 | Cookies are handed out one after another, and never past the last one filled in. |
| BadBlocks.CutsBad | dktp/disk/cmdk.c:1884-1949 | One replaced run more keeps the cookies equal to the sector-by-sector remapping. |
| BadBlocks.CutsGoodBad | dktp/disk/cmdk.c:1884-1949 | A good run followed by a replaced one does too. |
| BadBlocks.CutHead | dktp/disk/cmdk.c:1896-1949 | Case 6: the head of what is left is bad; exactly the sectors after the extent are left over. |
| BadBlocks.CutTail | dktp/disk/cmdk.c:1896-1949 | Case 5: the tail of what is left is bad; the cookies are complete. |
| BadBlocks.CutMiddle | dktp/disk/cmdk.c:1896-1949 | Case 4: a bad run in the middle; three cookies are touched and the rest of the request is left over. |
| BadBlocks.CutCookies | dktp/disk/cmdk.c:1884-1949 | The whole cutting loop: the cookies, read out in order, are the remapped sectors of the request, all non-empty, and fit into the 2 * cnt + 1 allocated. |
| BadBlocks.WindowRemap | dktp/disk/cmdk.c:1852-1879 | A window of the table that keeps every extent covering a sector maps it like the whole table. |
| BadBlocks.WindowRemapAll | dktp/disk/cmdk.c:1852-1879 | So a request inside a slice is remapped through the slice's window as through the whole table. |
| BadBlocks.Cmdk.Reopen | dktp/disk/cmdk.c:1724-1753 | The per-slice windows contain every extent that meets their slice; the index is adopted only when all slices could be read. |
| BadBlocks.Cmdk.GetHandle | dktp/disk/cmdk.c:1817-1953 | A handle's cookies are the pointwise remapping of the request through the table in force for its partition; no handle means that the remapping is the identity on it, as for every partition number beyond the label's. |
| BadBlocks.Strategy | dktp/disk/cmdk.c:1063-1118 | Clipping: what is let through lies in its slice, and transferred and residual bytes add up; exactly which requests bounce and with which error. |
| AtaDisk.CountRegister | dktp/controller/ata/ata_disk.c:1457-1461 | The eight-bit count register means the chunk that was set up, 256 sectors included; the chunk is as large as the bytes asked for and the controller allow, or one sector for a retry. |
| AtaDisk.CleanEndMovesAll | dktp/controller/ata/ata_disk.c:2107-2293 | A command that ends without error has moved all its bytes, whatever interrupts came. |
| AtaDisk.CleanEndFills | dktp/controller/ata/ata_disk.c:2107-2293 | The transfers at the data port of such a command are exactly its bytes, in order and without gaps, each from or to its own place in the buffer, with no error reported for any. |
| AtaDisk.MovesBeyond | dktp/controller/ata/ata_disk.c:2107-2293 | Whatever the device does, no transfer touches the buffer before the packet's address. |
| AtaDisk.ResidualExact | dktp/controller/ata/ata_disk.c:2107-2293 | For every device, the residual is the total less what crossed the data port and was acknowledged and what the packet counts twice, modulo the width of size_t. |
| AtaDisk.AckedMoves | dktp/controller/ata/ata_disk.c:2107-2293 | What a read counts as given is exactly what came in over the data port; what a write counts as taken is no more than went out. |
| AtaDisk.CommandOutcome | dktp/controller/ata/ata_disk.c:1992-2045 | Success means that everything moved, and every other report but an abort leaves the error flag set for the retry. |
| AtaDisk.SuccessExactly | dktp/controller/ata/ata_disk.c:2107-2293 | Which commands succeed, by the statuses alone: a command is reported as a success if and only if every block of it was offered (or asked for) by an interrupt without a complaint: for a read not busy, DRQ and neither fault nor error at each, DRQ dropped at the last; for a write no fault or error, and DRQ again in the alternate status for each further block. |
| AtaDisk.AbortExactly | dktp/controller/ata/ata_disk.c:1992-2045 | Which failures are final: a recorded error is reported as an abort exactly when the error register names none and the drive is neither busy nor faulty; a killed command is. |
| AtaDisk.CommandResidual | dktp/controller/ata/ata_disk.c:2195-2293 | A command's residual is exact if and only if the bytes counted twice come to nothing modulo 2^64 and the drive took no more than asked. |
| AtaDisk.ResidualCondition | dktp/controller/ata/ata_disk.c:2260-2267 | Counting twice happens exactly when a write interrupt without error follows one that left by the busy exit with a block outstanding: never for a read. The residual is exact when it does not happen and, for fewer interrupts than 2^64 bytes take, only then. |
| AtaDisk.OneBlockExact | dktp/controller/ata/ata_disk.c:2195-2293 | A command of a single block never counts one twice: its residual is exact whatever the device does. |
| AtaDisk.DoubleCountExample | dktp/controller/ata/ata_disk.c:2260-2267 | A two-sector write that reports a residual of 0 although the drive took one sector. |
| AtaDisk.AtaPacket.Setup | dktp/controller/ata/ata_disk.c:1298-1527 | The set-up of a PIO chunk, retries sector by sector included, updates the packet as its function says. |
| AtaDisk.AtaPacket.IntrPioIn | dktp/controller/ata/ata_disk.c:2107-2183 | The read interrupt updates the packet and moves bytes over the data port as its functions say; with AtaDisk.SuccessExactly that fixes when it records an error. |
| AtaDisk.AtaPacket.IntrPioOut | dktp/controller/ata/ata_disk.c:2195-2293 | The write interrupt does. |
| Dadk.ActionFor | dktp/dcdev/dadk.c:1229-1292 | The error table: only success ends a command silently, an abort is final, a busy drive waits. |
| Dadk.NextChunk | dktp/dcdev/dadk.c:1067-1105 | After a successful chunk the next set-up continues at exactly the next remapped sector and buffer position, across cookies. |
| Dadk.StepKeeps | dktp/dcdev/dadk.c:1140-1382 | Whatever happens to a chunk, the run's invariant stays: what is done is a prefix of the remapped request, what is left is the rest. |
| Dadk.StepExactly | dktp/dcdev/dadk.c:1140-1382 | By the drive's statuses: a chunk that succeeds is done, and the next one is sent or the request finished without error; a failed one is tried again, five times, unless the failure is final or the transport refused a retry; otherwise the request ends with an error. |
| Dadk.RequestRefinesRemap | dktp/dcdev/dadk.c:1046-1105 | For any alternates table, transport and device: the successful chunks in order are a prefix of the pointwise remapped request, in place; all of it when no error is reported; at most six transports per chunk; cookies are not read past the last; the run ends. |
| Dadk.HealthyRequest | dktp/dcdev/dadk.c:1352-1382 | A request whose chunks are all taken, each with an attempt that shows no complaint, ends without an error and with all its sectors done, after at most as many chunks as sectors. |
| Dadk.ObligingSucceeds | dktp/dcdev/dadk.c:1352-1382 | A drive that shows no complaint in commands of the request's size makes every attempt one like that. |
| Dadk.BufferHoldsRemap | dktp/dcdev/dadk.c:1352-1382 | By the transfers at the data port: a request without error has moved every byte of the buffer last from or to its own byte of its own remapped sector, whatever failed attempts had moved there. |
| Dadk.ErrorResidual | dktp/dcdev/dadk.c:1139-1187 | On error b_bcount - b_resid is the bytes moved: always for a read and when the last command was of one block; for a write unless the last command went on after a busy drive and no chunk was refused after it, and (short of 2^64 bytes) only then. |
| Dadk.WrongResidual | dktp/dcdev/dadk.c:1139-1187 | A request that ends like that: a three-sector write that fails with one sector taken, none done, and a residual that says two. |
| Dadk.RetryIsOneBlock | dktp/controller/ata/ata_disk.c:1326-1342 | A retry after an error is a command of one block. |
| Dadk.Cmpkt.constructor | dktp/dcdev/dadk.c:1047-1064 | dadk_ioprep sets the packet up as the specification does. |
| Dadk.Cmpkt.Iosetup | dktp/dcdev/dadk.c:1067-1105 | dadk_iosetup moves on within the cookie or to the next one. |
| Dadk.Cmpkt.Ioretry | dktp/dcdev/dadk.c:1140-1187 | dadk_ioretry retries five times and then accounts for the residual. |
| Dadk.Cmpkt.IoDone | dktp/dcdev/dadk.c:1352-1382 | dadk_iodone sends the next chunk or finishes, retries of a refused transport included. |
| Dadk.Cmpkt.Callback | dktp/dcdev/dadk.c:1191-1225 | dadk_pktcb follows the specification's step. |
| Transfer.SettledIsSteps | dktp/dcdev/dadk.c:1140-1187 | The transport's answers to a chunk act like so many refusals in a run, and an acceptance afterwards adds nothing. |
| Transfer.ServedKeeps | dktp/disk/cmdk.c:1063-1118 | The run of a clipped request: success means all sectors, bytes and residual; an error the residual's exact condition; six events per sector are enough to finish. |
| Transfer.ServedWell | dktp/disk/cmdk.c:1063-1118 | With a transport that takes every chunk and a drive that shows no complaint, a request that was let through is finished without error and with the residual of its clipping, once there are as many events as sectors. |
| Transfer.Deliver | dktp/dcdev/dadk.c:1191-1382 | One chunk on the objects leaves packet and buffer as one accepted step and the refusals after it leave the run. |
| Transfer.Serve | dktp/disk/cmdk.c:1063-1118 | A request on the driver's own objects, end to end: bounced exactly when clipping says so; otherwise result, residual and buffer are those of the run that the refusals and events define for the clipped and cut request, and keep what ServedKeeps promises. |
| WaitQueues.ShuffleKeeps | dktp/hba/ghd/ghd_waitq.c:195-242 | Shuffling up keeps every queue invariant, leaves the device nothing to promote, and no other device notices. |
| WaitQueues.TransportKeeps | dktp/hba/ghd/ghd.c:759-777 | Queueing a request keeps: each outstanding request is in exactly the place its level says, the counters count and stay within the throttles of adapter and devices, the queues are in order, and no device could promote more. |
| WaitQueues.TransportAdds | dktp/hba/ghd/ghd.c:759-777 | A submission makes exactly one new request outstanding, numbered next, at the end of its device's line (its requests in the adapter's queue and then those in its own); the lines of the others, the active count and the order of first starts stay. |
| WaitQueues.DeleteKeeps | dktp/hba/ghd/ghd_waitq.c:246-316 | So does removing a request from whichever level it has reached. |
| WaitQueues.DeleteRemoves | dktp/hba/ghd/ghd_waitq.c:246-316 | A removal takes exactly this request out, of the ranks and of its device's line, and off the active count if it was started; the lines of the others stay. |
| WaitQueues.StartHeadKeeps | dktp/hba/ghd/ghd_waitq.c:377-389 | So does handing the head to the start function; first starts of a device's requests are in transport order. |
| WaitQueues.StartMoves | dktp/hba/ghd/ghd_waitq.c:377-389 | A start takes the head of its device's line; nobody comes or goes. |
| WaitQueues.RequeueKeeps | dktp/hba/ghd/ghd_waitq.c:390-402 | So does putting a refused request back at the head. |
| WaitQueues.RequeueMoves | dktp/hba/ghd/ghd_waitq.c:390-402 | A refusal puts it back at the head of that line; nobody comes or goes. |
| WaitQueues.WaitingMeansBusy | dktp/hba/ghd/ghd_waitq.c:195-242 | A device whose throttle is at least one and that has requests waiting has one promoted. |
| WaitQueues.ThrottleUsed | dktp/hba/ghd/ghd_waitq.c:195-242 | It has as many promoted as its throttle allows, or one if it has several instances. |
| WaitQueues.ProcessStartsPrefix | dktp/hba/ghd/ghd_waitq.c:320-410 | The start loop starts the front of the queue, in order, up to the throttle, the gate or the first refusal, and says whether it started any. |
| WaitQueues.ProcessKeeps | dktp/hba/ghd/ghd_waitq.c:320-410 | The start loop keeps the invariants for any answers of the start function. |
| WaitQueues.Ccc.WaitqShuffleUp | dktp/hba/ghd/ghd_waitq.c:195-242 | The loop computes the specification. |
| WaitQueues.Ccc.WaitqDelete | dktp/hba/ghd/ghd_waitq.c:246-316 | The switch and the shuffle compute the specification. |
| WaitQueues.Ccc.ProcessHold | dktp/hba/ghd/ghd_waitq.c:320-410 | The loop computes the specification, thawing included. |
| Ghd.NoneForgottenKept | dktp/hba/ghd/ghd.c:784-808 | Every step of every thread keeps: nobody who could start requests has left while some could be started. |
| Ghd.RunKeepsQueues | dktp/hba/ghd/ghd_waitq.c:320-429 | In every interleaving the queue invariants hold in every state. |
| Ghd.MutualExclusion | dktp/hba/ghd/ghd.c:268-289 | Two threads are never inside one mutex. |
| Ghd.NoLostWakeup | dktp/hba/ghd/ghd_waitq.c:413-429 | In every interleaving, whenever both mutexes are free the adapter's queue is empty, throttled, held, frozen, or its head has just been refused. |
| Ghd.NothingStranded | dktp/hba/ghd/ghd.c:784-808 | So, these exceptions aside, a waiting request always waits for one that the adapter has. |
| Ghd.NoneLost | dktp/hba/ghd/ghd.c:728-777 | In every interleaving: the requests that came are numbered without a gap, each goes (completed or ended early) at most once and only after coming, and the outstanding ones are exactly those that came and did not go. |
| Ghd.CallsBring | dktp/hba/ghd/ghd.c:728-777 | Each call of sol11ghd_transport brings one request for the device it named: the calls for a device are the requests that came for it and those that a thread is about to queue. |
| Ghd.StartedMeansTaken | dktp/hba/ghd/ghd_waitq.c:377-402 | In every interleaving the requests at level 3 are exactly those that the start function took and the one it is being offered; one that it refused is not left there. |
| Ghd.StartsOnlyWhenOpen | dktp/hba/ghd/ghd.c:891-925 | A request is handed over only when, by the calls that hold, freeze and release the queue, it is neither held nor frozen (unless it has waited long enough), and the throttle allows it; and it is the head of the queue. |
| Ghd.GuardsHold | dktp/hba/ghd/ghd_waitq.c:320-410 | What the steps ask of the queues holds in every reachable state, so the step relation drops no behaviour. |
| Ghd.NoDeadlock | dktp/hba/ghd/ghd.c:268-289 | The documented lock order cannot deadlock: while a thread is inside, some thread inside can move. |
| Ghd.WaitqFirstStrands | dktp/hba/ghd/ghd_waitq.c:421-428 | With the two mutex_exit calls exchanged there is a run after which everybody has left and a request could be started: the order in the code is needed. |
| DoneQueue.Ccc.Drain | dktp/hba/ghd/ghd.c:497-512 | The inner loop empties the done queue and keeps all but the polled request, in order. |
| DoneQueue.Ccc.Poll | dktp/hba/ghd/ghd.c:439-560 | ghd_poll puts every other request back in completion order, ends with the first turn that satisfies it, and triggers no interrupt. |
| DoneQueue.HandedInOrder | dktp/hba/ghd/ghd.c:185-227 | In every run completions are taken off the queue in order, each is reported to the target driver once or about to be, and without poller, pending interrupt and handler the queue is empty and all are reported. |
| DoneQueue.ProcessHands | dktp/hba/ghd/ghd.c:185-227 | In poll mode nothing is taken off the queue for the target driver, and a handler that looks then is done; otherwise it takes the front, until the queue is empty. |
| DoneQueue.OneWayEach | dktp/hba/ghd/ghd.c:439-560 | Every completion goes one way, once: to the poller that waits for it, or onto the queue and to the target driver in its turn. |
| DoneQueue.NoIdleInterrupt | dktp/hba/ghd/ghd.c:156-167 | Software interrupts are delivered at most as often as a request completed outside poll mode or a poll left some behind. |
| DoneQueue.CallbacksInOrder | dktp/hba/ghd/ghd.c:212-224 | With one handler at a time the target driver is told of completions in the order in which they came. |
| DoneQueue.CallbacksMayPass | dktp/hba/ghd/ghd.c:212-224 | With two handlers, which call without the mutex, it can be told in the other order. |
| DoneQueue.NeitherPolledNorPending | dktp/hba/ghd/ghd.c:156-167 | A run that leaves a request on the queue with neither pollmode nor a pending interrupt, in the window before the queue is looked at. |
| DoneQueue.WindowExactly | dktp/hba/ghd/ghd.c:156-167 | In every reachable state, what is on the queue has pollmode, a pending interrupt or a handler if and only if the poller is not in that window. |
| Atapi.FiniMeansIdle | dktp/controller/ata/atapi_fsm.c:102-144 | A command that ended leaves the drive in S_IDLE; otherwise exactly the events the tables call unsupported do. |
| Atapi.StartsAfterFini | dktp/controller/ata/atapi_fsm.c:622-671 | After an end the next start is refused only by the device, never for the drive's state. |
| Atapi.CdbAtMostOnce | dktp/controller/ata/atapi_fsm.c:683-884 | For any events after a start the CDB is sent at most once, and exactly when the first interrupt that is not busy asks for it. |
| Atapi.DataWithoutCdb | dktp/controller/ata/atapi_fsm.c:102-144 | An idle interrupt in S_CMD is enough for data to move without the CDB. |
| Atapi.DataMeansCdb | dktp/controller/ata/atapi_fsm.c:102-144 | For any events: when data moves, the CDB was sent exactly when the first interrupt that was not busy asked for it. |
| Atapi.CleanCommandReports | dktp/controller/ata/atapi_fsm.c:148-177 | A command without any error is reported as failed exactly when it came with AP_ERROR, which a start refused for a busy controller leaves behind. |
| Atapi.PioCourse | dktp/controller/ata/atapi_fsm.c:102-144 | For any interrupts after a start without DMA: the state is what the interrupts before the first that stops the command say (waiting for the CDB, data in, data out), and the command has ended if and only if that one shows status, or nothing at all; it is stopped also by data in the other direction, a request for the CDB after data, and the reserved event. |
| Atapi.PioMovesAll | dktp/controller/ata/atapi_fsm.c:379-519 | All that the drive offers in the packet's direction before that is moved and nothing else: the words are those of every data-in interrupt to its last byte, or of every data-out interrupt as far as the buffer goes, and the final residual is the buffer less what was offered, but not below 0. |
| Atapi.OfferTaken | dktp/controller/ata/atapi_fsm.c:811-856 | Each by itself: every data-in interrupt of a read reads half its byte count in words, rounded up, and every data-out interrupt of a write sends what is left of the buffer up to it. |
| Atapi.PioMarks | dktp/controller/ata/atapi_fsm.c:391-470 | AP_XFERRED_DATA is set exactly when data was shown in the packet's direction. |
| Atapi.FailsExactly | dktp/controller/ata/atapi_fsm.c:527-557 | For any command and interrupts, AP_ERROR is set at the end if and only if it came with the packet, the interrupt that ends the command shows an error or a fault, or a DMA error was latched on the way; and then ap_status has the error bit of that interrupt. |
| Atapi.DmaCourse | dktp/controller/ata/atapi_fsm.c:102-144 | A DMA command whose CDB went out lasts until the drive shows status, or nothing at all; then ap_resid is 0 and AP_XFERRED_DATA set unless an error was latched, and otherwise nothing is accounted. |
| Atapi.NoPioInDma | dktp/controller/ata/atapi_fsm.c:791-829 | No word moves by PIO in S_DMA or for a DMA packet. |
| Atapi.TransfersAccounted | dktp/controller/ata/atapi_fsm.c:379-519 | Over a whole command ap_v_addr + ap_resid is constant, but for a DMA end that sets ap_resid to 0, and no more moves than the words transferred. |
| Atapi.Request.PioDataIn | dktp/controller/ata/atapi_fsm.c:379-452 | Exactly half the drive's byte count in words, rounded up, is read; the buffer gets the bytes in order up to ap_resid and nothing else changes. |
| Atapi.Request.PioDataOut | dktp/controller/ata/atapi_fsm.c:460-519 | The words sent are the buffer's next bytes; an odd last one is sign-extended. |
| Atapi.Drive.FsmStart | dktp/controller/ata/atapi_fsm.c:622-671 | The start computes the specification. |
| Atapi.Drive.FsmIntr | dktp/controller/ata/atapi_fsm.c:683-884 | The interrupt computes the specification, transfers included; Atapi.PioCourse and Atapi.PioMovesAll say what that comes to over a command. |
| Controller.FsmKeeps | dktp/controller/ata/ata_common.c:2316-2507 | After every call the state is idle iff there is no active packet and no active drive, ACTIVEk means drive k, the ARQ packet is active iff a packet was put aside, unused drives are idle; and the call a return code asks for is possible. |
| Controller.LoopEnds | dktp/controller/ata/ata_common.c:2572-2605 | The loops around the machine end after at most five calls, so their watchdogs never fire, and keep or complete the request once. |
| Controller.HbaStartTakes | dktp/controller/ata/ata_common.c:2941-3016 | FALSE exactly when the controller has a packet or the drive refuses, and then nothing changed; otherwise the request is the controller's or complete. |
| Controller.IntrKeepsOrCompletes | dktp/controller/ata/ata_common.c:2894-2930 | An interrupt completes the request once or keeps it, with at most four calls. |
| Controller.PacketInterrupt | dktp/controller/ata/ata_common.c:2316-2563 | What becomes of an ATAPI request at an interrupt, from the interrupt: it goes on with the packet as the machine left it; or it ends, and completes as it is, unless it asked for sense and the interrupt shows an error, when sense is tried, to its end if that comes at once. |
| Controller.SenseExactly | dktp/controller/ata/ata_common.c:2460-2485 | A request whose interrupt ends it is put aside for its sense data if and only if it has AP_ARQ_ON_ERROR, the interrupt shows ATS_ERR, and the drive takes the sense packet and does not end it on the spot; otherwise it is complete, and as it was unless the sense packet was taken. |
| Controller.MarksMeanSense | dktp/controller/ata/ata_common.c:2435-2456 | No interrupt of the request itself sets or clears one of the two ARQ marks. |
| Controller.SenseReads | dktp/controller/ata/ata_common.c:2511-2563 | The sense packet is a PIO read into the room for sense data: over any interrupts every byte that the drive offers lands as far as there is room. |
| Controller.DiskInterrupt | dktp/controller/ata/ata_common.c:2894-2930 | A disk request is completed by an interrupt exactly when the disk routine says that it is over, and otherwise nothing changes. |
| Controller.StartOutcome | dktp/controller/ata/ata_common.c:2941-3016 | A start that is not refused: what waits is the request in its start state; a polled CDB goes on as at an interrupt; a packet that ends in its start function is complete. |
| Controller.ResetCompletes | dktp/controller/ata/ata_common.c:2572-2639 | With a request, TRUE exactly when it was completed, exactly when the software reset worked. |
| Controller.ResetReports | dktp/controller/ata/ata_common.c:2572-2639 | A reset that works completes the request marked with AP_DEV_RESET and AP_BUS_RESET, or with AP_ARQ_ERROR if it waited for sense, and leaves both drives idle. |
| Controller.SenseNeverNests | dktp/controller/ata/ata_common.c:2435-2456 | The end of a sense packet always completes the packet put aside, marked with how the sense went. |
| Controller.CompletedExactlyOnce | dktp/controller/ata/ata_common.c:2316-2563 | Over any run with any devices every accepted request is completed exactly once, in order, except the one the controller still has. |
| Controller.AtaCtl.CtlrFsm | dktp/controller/ata/ata_common.c:2335-2507 | The machine computes the specification. |
| Controller.AtaCtl.StartArq | dktp/controller/ata/ata_common.c:2511-2563 | The sense packet is set up and started as the specification does. |
| Controller.AtaCtl.HbaStartCall | dktp/controller/ata/ata_common.c:2941-3016 | The loop computes the specification. |
| Controller.AtaCtl.ProcessIntrCall | dktp/controller/ata/ata_common.c:2894-2930 | The loop computes the specification. |
| Controller.AtaCtl.ResetBusCall | dktp/controller/ata/ata_common.c:2572-2639 | The loop computes the specification. |
| Adapter.AlwaysAgree | dktp/controller/ata/ata_common.c:1101 | With one active request per adapter, its count is 1 in every reachable state iff the controller has a packet, and they mean the same request; while the start function runs, with submissions in between, the count is 1 for the request on its way and the controller has none. |
| Adapter.GuardsNeverFire | dktp/controller/ata/ata_common.c:2956-2963 | The two guards of ata_hba_start never fire, whatever was submitted since the head was taken; an early abort or timeout is never of the controller's request. |
| Adapter.RefusalLeavesIdle | dktp/hba/ghd/ghd_waitq.c:390-402 | After a refusal the request is back at the head, before the queue as it has become meanwhile, and neither the layer nor the controller has anything active. |
| Adapter.CompletesOutstanding | dktp/hba/ghd/ghd.h:359-365 | Completion is called for an outstanding, started request, which is outstanding no more afterwards. |
| Adapter.NoneLost | dktp/hba/ghd/ghd.h:359-365 | Over any run of the two layers every submitted request is outstanding until the controller completes it or it is ended early, one of the two, and once. |
| Timer.TriesInOrder | dktp/hba/ghd/ghd_timer.c:315-527 | Recovery tries at most six actions, one after the other with none left out, each refused but the last, and ends accepted, at a bus reset not tried for a frozen queue, or given up. |
| Timer.NewstateKeeps | dktp/hba/ghd/ghd_timer.c:315-527 | A request is on the timer list at most once and only while neither idle nor done; others' timers stay and their states only rise; the request ends complete or with a timer just started, hung ones for 60 seconds. |
| Timer.AcceptedRaises | dktp/hba/ghd/ghd_timer.c:483-527 | A bus reset that was taken puts every listed request past the wait queue at least in its state, an abort or reset of a device those of the device. |
| Timer.RecoveryTimes | dktp/hba/ghd/ghd_timer.c:57-75 | An abort has 3 seconds, a device reset 5, a bus reset 10, and a hung request is looked at again after 60. |
| Timer.RecoveryBegins | dktp/hba/ghd/ghd_timer.c:609-646 | What a timeout does first: a waiting request is timed out early, an active one aborted, and one in the state of an action goes on with the next action, for each of them. |
| Timer.ScanKeeps | dktp/hba/ghd/ghd_timer.c:483-527 | The final scan only raises states of listed requests past the wait queue. |
| Timer.RecoverKeeps | dktp/hba/ghd/ghd_timer.c:596-655 | With a fixed clock each recovery leaves strictly fewer requests expired. |
| Timer.Poll | dktp/hba/ghd/ghd_timer.c:596-655 | So polling ends, with nothing expired left when it handles all. |
| Timer.AtaExpiry | dktp/controller/ata/ata_common.c:902-963 | The actions after an abort of an ATA request: straight to the bus reset; it is complete iff that works and the queue is not frozen; else it is hung for 60 seconds or waits frozen. |
| Timer.AtaRecovers | dktp/hba/ghd/ghd_timer.c:596-655 | So it goes for an active ATA request whose timer runs out. |
| Timer.AtaPolls | dktp/hba/ghd/ghd_timer.c:596-655 | And over a whole poll of the ATA timers: requests whose timers run are left alone, waiting ones whose timers ran out are completed, and the active one is if and only if the queue is not frozen and the reset works. |
| Timer.FrozenResetIsSkipped | dktp/hba/ghd/ghd_timer.c:444-447 | A bus reset skipped because the queue was frozen is never made up for. |
| Timer.OnceWhileOutstanding | dktp/hba/ghd/ghd_timer.c:315-527 | Over any run of transports, starts, refusals, completions, callbacks, aborts, sweeps and polls: a request has its timer on the list exactly while it is neither idle nor done, once. |
| Timer.Deadline | dktp/hba/ghd/ghd_timer.c:867-881 | Over any run, until something takes a request off the list or recovery turns to it, its timer has run out if and only if the seconds it was submitted with have passed since, however it was started or refused in between. |
| Timer.RunsOut | dktp/hba/ghd/ghd_timer.c:596-655 | The poll after that completes it or has just begun its recovery, and leaves nothing expired. |
| Timer.DoneStays | dktp/hba/ghd/ghd.h:359-365 | From its completion until the target driver has it again a request stays done and has no timer, whatever else happens. |
| Timer.AbortEnds | dktp/hba/ghd/ghd.c:571-616 | The target driver's abort ends a waiting request early if the driver can, aborts an active one, begins recovery otherwise, and does nothing in any other state. |
| Timer.HandedOver | dktp/hba/ghd/ghd_waitq.c:377-402 | A start and a refusal leave the timer running and say who has the request. |
| Timer.SweepRaises | dktp/hba/ghd/ghd_timer.c:483-527 | A device or bus wide action puts the listed requests that it affects in its state or beyond, with their timers as they were. |
| Timer.Clock | dktp/hba/ghd/ghd_timer.c:596-655 | No recovery moves the clock or the freeze: they are what the ticks and freezes of the run come to. |
| Timer.Ccc.TimerStart | dktp/hba/ghd/ghd_timer.c:867-881 | Starting a timer puts the request at the end of the list with the current time. |
| Timer.Ccc.TimerNewstate | dktp/hba/ghd/ghd_timer.c:315-527 | The loop computes the specification. |
| Timer.Ccc.ScanList | dktp/hba/ghd/ghd_timer.c:483-527 | The scan computes the specification. |
| Timer.Ccc.TimeoutGet | dktp/hba/ghd/ghd_timer.c:669-693 | The first expired request is found and taken off the list. |
| Timer.Ccc.TimerPoll | dktp/hba/ghd/ghd_timer.c:596-655 | The loop computes the specification, and the states that are not supposed to happen do not. |
| OneWayScan.InsertIs | dktp/drvobj/strategy.c:1403-1428 | Insertion keeps a list in block order, first come first served for one block, and adds exactly the new request. |
| OneWayScan.After | dktp/drvobj/strategy.c:1391-1447 | After any operations: both lists sorted, deferred requests below the active head, the count right, nothing lost, dispatches in order of sweep and block. |
| OneWayScan.Dispatches | dktp/drvobj/strategy.c:1391-1447 | Any two dispatches are in order of sweep, block and arrival, and no request waits past the sweep after the one it came in. |
| OneWayScan.EmptyMeansAll | dktp/drvobj/strategy.c:1431-1447 | An empty answer means that everything that came has been dispatched. |
| OneWayScan.QueData.OnewayScan | dktp/drvobj/strategy.c:1403-1428 | The search loop computes the specification. |
| OneWayScan.QueData.QsortAdd | dktp/drvobj/strategy.c:1392-1397 | The addition computes the specification. |
| OneWayScan.QueData.QsortDel | dktp/drvobj/strategy.c:1431-1447 | So does the deletion. |
| FlowControl.RunKeeps | dktp/drvobj/strategy.c:215-310 | In every interleaving, for any limit, 0 <= ds_outcnt <= limit, nothing is lost or taken twice, requests are taken in arrival order, each taken request has been transported once or one thread is about to, no transported one is about to be again, and waiting work is attended to unless a packet preparation failed silently. |
| FlowControl.DeviceHas | dktp/drvobj/strategy.c:215-310 | In every interleaving the device has exactly what was sent to it and not yet completed. |
| FlowControl.SlotsUsed | dktp/drvobj/strategy.c:390-448 | Work waits beside a free slot only while a thread is about to look at the queue, after a failure to prepare a packet, or after a thread came back from a transport to a taken mutex. |
| FlowControl.SingleSendsInOrder | dktp/drvobj/strategy.c:255-303 | For dsngl the device gets the requests in arrival order. |
| FlowControl.TwoMayPass | dktp/drvobj/strategy.c:376-386 | For any limit of two or more, two requests can reach the device in the other order. |
| FlowControl.InOrderExactly | dktp/drvobj/strategy.c:255-303 | So the device gets requests in arrival order in every run if and only if the limit is one. |
| FlowControl.QuietMeansOwed | dktp/drvobj/strategy.c:390-448 | When all is quiet and work waits, a restart is owed or the last packet preparation failed silently. |
| FlowControl.StalledExactly | dktp/drvobj/strategy.c:348-455 | In every reachable quiet state: work waits with no restart owed if and only if the last packet preparation failed silently and no restart is owed. |
| FlowControl.NoStall | dktp/drvobj/strategy.c:348-455 | So if no preparation fails silently the driver never stalls. |
| FlowControl.SilentFailureStalls | dktp/controller/ata/ata_disk.c:1100-1154 | One silent failure with nothing outstanding stalls it. |
| FlowControl.StalledForGood | dktp/drvobj/strategy.c:349-448 | From such a state every run without a restart, however many requests come, takes and sends nothing more. |
| FlowControl.QuietStallIsForGood | dktp/drvobj/strategy.c:349-448 | Every reachable quiet state with work waiting and no restart owed is such a state. |
| FlowControl.DrainTakesFront | dktp/drvobj/strategy.c:390-448 | A drain hands out the front of what waited, until nothing waits, the limit is reached, a packet is missing, or the mutex is taken. |
| FlowControl.FcData.EnqueCall | dktp/drvobj/strategy.c:349-387 | dmult_enque, and with a limit of one dsngl_enque, computes the specification. |
| FlowControl.FcData.DequeCall | dktp/drvobj/strategy.c:390-448 | So does the loop of dmult_deque and dsngl_deque. |
| QMerge.BackFits | dktp/drvobj/strategy.c:975-1011 | For any ring: the walk back from the head ends between two buffers that the new one fits between, or where blocks fall no further and the new one is no higher. |
| QMerge.ForthFits | dktp/drvobj/strategy.c:1012-1046 | The walk forward ends between two that it fits between, or where blocks rise no further and it is no lower. |
| QMerge.WithKeepsRing | dktp/drvobj/strategy.c:975-1046 | An insertion keeps a ring an ascending cycle, equal blocks allowed, if and only if its walk does not stop between two equal blocks other than the new one in a ring that has others. |
| QMerge.DistinctFree | dktp/drvobj/strategy.c:975-1046 | In a ring of distinct blocks no walk stops so. |
| QMerge.ChooseRing | dktp/drvobj/strategy.c:1103-1292 | The jumps back to the beginning of a pick end, with a ring that is not empty and flags that fit after the removal. |
| QMerge.NextKeeps | dktp/drvobj/strategy.c:1103-1292 | A pick takes out exactly one buffer, none iff both rings are empty, and keeps counts, flags and rings. |
| QMerge.AddKeeps | dktp/drvobj/strategy.c:941-1060 | An insertion adds exactly the buffer, keeps counts and flags, and keeps the rings ascending cycles exactly when its walk does not get stuck, wherever the head goes. |
| QMerge.After | dktp/drvobj/strategy.c:940-1060 | After any operations the ring sizes sum to q_cnt, ASYNCONLY holds iff only the asynchronous ring is non-empty, ASYNCALSO implies that both are, and nothing is lost. |
| QMerge.RingsStay | dktp/drvobj/strategy.c:940-1060 | Over any run both rings are ascending cycles after every operation if and only if no walk gets stuck. |
| QMerge.NewBlocksStay | dktp/drvobj/strategy.c:940-1060 | With pairwise different blocks none does, and the cycles stay strict. |
| QMerge.EqualBlocksBreakTheRing | dktp/drvobj/strategy.c:1012-1046 | After requests for blocks 9, 5, 5 and 7 on an empty queue the ring is 5, 7, 5, 9, which is no ascending cycle, strict or not. |
| QMergeScan.AddAims | dktp/drvobj/strategy.c:975-1046 | An insertion keeps the heads where the scan goes on (nothing ahead of the position nearer than the head; a passed ring at its far end; a waiting one at its lowest) if and only if it does not go into a ring whose head has been passed, ahead of the position or behind that head. |
| QMergeScan.NearestTaken | dktp/drvobj/strategy.c:1103-1292 | A pick from such rings that finds no head at its position takes the nearest request ahead in the direction of the scan, of both rings when both are scanned; with none ahead, the highest of both on the way down, or the lowest synchronous one; and it keeps the heads so. |
| QMergeScan.TurnsExactly | dktp/drvobj/strategy.c:1119-1262 | A scan of one ring turns exactly when nothing that stays is ahead; the position is the block taken, for a one-way scan the next to be taken, and 0 for a scan that starts anew. |
| QMergeScan.BothTurn | dktp/drvobj/strategy.c:1144-1213 | With both rings scanned the direction changes exactly when nothing is ahead: down for the elevator, else anew upwards without the asynchronous ring and with the full count; that ring leaves the scan also when it empties. |
| QMergeScan.LetIn | dktp/drvobj/strategy.c:1214-1262 | The asynchronous ring is let in at the end of a scan that finds the count at zero, each other end takes one off it, and nothing else does; at once when the synchronous ring empties. |
| QMergeScan.LastAsync | dktp/drvobj/strategy.c:1119-1128 | When the asynchronous ring alone was scanned and runs empty, direction and position are those of an empty queue. |
| QMergeScan.PicksNearest | dktp/drvobj/strategy.c:940-1292 | Over any run of pairwise different blocks without such insertions and without a head at the position of a pick, every pick takes the nearest request ahead. |
| QMergeScan.OnePriorityNearest | dktp/drvobj/strategy.c:940-1292 | With one priority that holds of every run of pairwise different blocks, for the elevator and for the one-way scan. |
| QMergeScan.BlockZeroIsPassedOver | dktp/drvobj/strategy.c:1186-1207 | A pick that passes over a nearer request, since the head of its ring is block 0 at position 0. |
| QMergeScan.PassedRingIsPassedOver | dktp/drvobj/strategy.c:1012-1046 | One that does, since the nearer request went into a ring whose head has been passed. |
| QMergeNodes.MutuallyInverse | dktp/drvobj/strategy.c:941-1060 | In a linked ring the two links of each buffer undo each other. |
| QMergeNodes.TurnedLinked | dktp/drvobj/strategy.c:1150-1176 | A linked ring is one from any of its buffers, and stands for the turned sequence. |
| QMergeNodes.SplicedLinked | dktp/drvobj/strategy.c:983-1040 | The links that any of the four splices leaves are those of the ring with the buffer put in at that place. |
| QMergeNodes.SpliceBehind | dktp/drvobj/strategy.c:983-986 | The four writes of the first splice put the buffer behind bp1 in the ring. |
| QMergeNodes.SpliceBefore | dktp/drvobj/strategy.c:1003-1021 | Those of the second and third put it before the lowest or the first higher one, behind all when that is the head. |
| QMergeNodes.SpliceAbove | dktp/drvobj/strategy.c:1037-1040 | Those of the fourth put it behind the highest. |
| QMergeNodes.WalkBack | dktp/drvobj/strategy.c:975-1011 | The first loop on the links ends at the node that the specification's walk ends at. |
| QMergeNodes.WalkForth | dktp/drvobj/strategy.c:1012-1036 | So does the second. |
| QMergeNodes.QueData.QmergeAdd | dktp/drvobj/strategy.c:941-1060 | On linked buffers, heads and flags: both rings stay soundly linked, stand for the specification's insertion, gain exactly the buffer, and its av_back is kept in b_error. |
| QMergeNodes.Bypass | dktp/drvobj/strategy.c:1277-1279 | The unlinking writes leave the links of the ring without its head. |
| QMergeNodes.QueData.Rewind | dktp/drvobj/strategy.c:1118-1185 | The jumps back to begin_nextbp, which turn both heads, end, and do not change what the pick comes to. |
| QMergeNodes.QueData.QmergeNextbp | dktp/drvobj/strategy.c:1103-1292 | The pick on the driver's own heads, flags and links takes the buffer that the specification takes, unlinks it with av_forw cleared and av_back as it was when it came, and leaves both rings soundly linked with all the others. |
| QMergeNodes.Perform | dktp/drvobj/strategy.c:940-1292 | Over any run from an empty queue the linked rings are the specification's, and the two links of every waiting buffer undo each other. |
| LinkedLists.Add | dktp/hba/ghd/ghd_queue.c:116-129 | On linked nodes: the list becomes the old one with the node at its end, and nobody's private pointer changes. |
| LinkedLists.AddHead | dktp/hba/ghd/ghd_queue.c:151-164 | The same at the front. |
| LinkedLists.Delete | dktp/hba/ghd/ghd_queue.c:132-147 | The list loses exactly the node, which is then linked to itself. |
| LinkedLists.DeleteAgain | dktp/hba/ghd/ghd_queue.c:132-147 | A second delete changes nothing. |
| LinkedLists.RemoveHead | dktp/hba/ghd/ghd_queue.c:176-195 | The head's private pointer, or NULL for an empty list. |
| LinkedLists.NextIs | dktp/hba/ghd/ghd_queue.c:198-206 | What L2_next finds behind the head and behind each element. |
| LinkedLists.Scan | dktp/hba/ghd/ghd_timer.c:182-192 | A scan visits every element once, in order, and stops, given that the head's private pointer is NULL. |
| Registers.RoundTripLba28 | dktp/controller/ata/ata_disk.c:1579-1601 | The address read back from freshly loaded registers is the one loaded iff it is below 2^28. |
| Registers.RoundTripLba48 | dktp/controller/ata/ata_disk.c:1630-1659 | Iff it is below 2^48, through two-deep registers and HOB. |
| Registers.RoundTripChs | dktp/controller/ata/ata_disk.c:1662-1687 | Iff the cylinder has 16 bits, for up to 16 heads and 255 sectors. |
| Registers.ResidExact | dktp/controller/ata/ata_disk.c:2696-2721 | The residual computed from the failing sector is right iff the transfer was not of 256 sectors in 28-bit mode. |
| Registers.Drive.LoadRegsLba28 | dktp/controller/ata/ata_disk.c:1579-1601 | The shifts and stores compute the specification. |
| Registers.Drive.LoadRegsLba48 | dktp/controller/ata/ata_disk.c:1630-1659 | So do those with 16-bit and 32-bit variables. |
| Registers.Drive.LastBlockXferredLba48 | dktp/controller/ata/ata_disk.c:2649-2672 | So does the read-back, which leaves HOB off. |
| DmaWindows.TakeStops | dktp/hba/ghd/ghd_dma.c:155-187 | A scatter/gather list stops at the first of: end of window, bytes asked for, room. |
| DmaWindows.WalkTakesAll | dktp/hba/ghd/ghd_dma.c:197-245 | Successive set-ups take every cookie of every window once, in order, whatever they ask for. |
| DmaWindows.WholeBuffer | dktp/hba/ghd/ghd_dma.c:197-245 | The lists of enough set-ups together are the buffer, and the bytes add up. |
| DmaWindows.TakesRest | dktp/hba/ghd/ghd_dma.c:155-187 | A set-up takes all that is left of a window if and only if neither the bytes asked for nor the room end the list before. |
| DmaWindows.WindowAtOnce | dktp/hba/ghd/ghd_dma.c:136-192 | So one asked for no less than a window, with room for it, takes exactly the window. |
| DmaWindows.WithinAsked | dktp/hba/ghd/ghd_dma.c:155-187 | A set-up stays within the bytes asked for if and only if all the cookies it could take do, or some number of them from the first on make up exactly that many bytes. |
| DmaWindows.OverAsked | dktp/hba/ghd/ghd_dma.c:179-180 | A set-up that takes more bytes than asked for. |
| DmaWindows.Gcmd.NextAttr | dktp/hba/ghd/ghd_dma.c:136-192 | The loop takes what the specification says and moves on to the next cookie or window. |
| DmaWindows.Gcmd.DmagetAttr | dktp/hba/ghd/ghd_dma.c:197-245 | The set-up fails only past the last window or when the window cannot be had, and the DDI's next cookie is always the driver's. |

## Left out

- DMA commands of ATA disks: `AtaDisk`, `Dadk` and `Transfer` are about PIO. With a bad-block handle and
  DMA the end-to-end result does not hold, since a set-up can take more than a cookie
  (`ata_disk.c:1388-1397`).
- Requests of zero length and 32-bit overflow of sector numbers: the request has at least one sector
  and block numbers are unbounded.
- The reading of the alternates table from the disk in `cmdk_bbh_reopen`, `cmdk_bbh_freehandle`,
  attach, detach, labels, device ids, ioctls, kernel statistics and logging.
- The pass-through and dump paths of `dadk.c`, and its flush-cache case.
- A busy drive is retried by a timer in `dadk_chkerr`; here the retry follows at once, since nothing else
  can happen to that packet in between.
- AtaDisk.ResidualCondition: that a residual is wrong when a write goes on after a busy drive is said of
  commands with fewer interrupts than 2^64 bytes take, since the count could otherwise come round to the
  right value. That it is exact in the other case, and AtaDisk.CommandResidual, have no bound.
- Ghd.NoLostWakeup: interrupts, polls, aborts, resets and timeouts are one kind of thread, which may
  keep the adapter's mutex or leave after any pass of the start loop; that allows more runs than each of
  them alone. Whether a frozen queue has thawed is an input.
- Ghd.NothingStranded: does not say that the active request completes; that is up to the device and the
  timer.
- Target initialization and removal (`ghd_target_init`, `ghd_target_free`), which change throttles, and
  reset notification, which puts marker entries at the head of the done queue.
- DoneQueue.Ccc.Poll: elapsed time is the number of turns given.
- DoneQueue.HandedInOrder: a whole `ghd_poll` between entering and clearing poll mode is one step, with
  completions as steps of their own before and after it.
- Timer.NewstateKeeps: recovery for a request; an abort or reset of a whole device or bus by the target
  driver appears in Timer.OnceWhileOutstanding by what it does, completions and a sweep of the list, and
  not as a chain of actions. The clock does not wrap.
- Timer.AtaExpiry: takes the outcome of the bus reset as given; Controller.ResetCompletes says what it is.
- Atapi.CdbAtMostOnce: is about interrupts after one start; resets in between begin a new command.
- Controller.CompletedExactlyOnce: does not say that a request completes eventually.
- Packets of removable-media commands (`ata_queue_cmd`) are modelled as packets that end in their start
  function; what these functions do is not.
- FlowControl.RunKeeps: attends to waiting work only up to silent failures of packet preparation, since
  the property is false otherwise.
- The wait queues, the done queue, the timer list and the scheduler queues are sequences in their
  modules; LinkedLists has the pointer operations on which the first three rest, and QMergeNodes those of
  the `qmerge` rings. The singly linked `L1_*` lists and the `av_forw` chains of `qsort` and of the flow
  control are not modelled as nodes.
- QMergeNodes.QueData.QmergeNextbp: the driver's local copy of the flags is the field itself, which nobody
  reads in between; `can_merge` belongs to merging. `b_error` is taken to be wide enough for the pointer kept
  in it; the declaration of struct buf is not part of this model.
- Merging in `qmerge` and the duplex flow control, which cannot be selected.
- QMergeScan.NearestTaken: for distinct blocks in each ring. That a pick can fail it when a head is at its position
  is shown by an example; which of these picks do depends on what is behind that head.
- DmaWindows.WholeBuffer: assumes the contract of the DDI, windows and cookies in order, none empty.
- Registers.ResidExact: for up to 65535 sectors in 48-bit mode, the largest count other than 0.
- `sil3xxx.c`, blacklists, `pci-ide`, and register timing.
