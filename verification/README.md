# A verified model of the layered memory of dis-store

dis-store layers memory: a demand-paging simulator keeps pages of a large memory in few frames, and
Infiniswap keeps pages of a block device in the memory of other machines, with a disk behind it. This
project models both and proves that each layer behaves like plain memory and that every remote slab has
exactly one owner.

The project has four parts.

- **Paging** (`Clock`, `PagedMemory`). The simulator of `sim_page.h` as a class over a page table array and
  a physical memory array. The resident entries form a ring through `cnext`; the ring is proved to be the
  textbook array clock, and the memory to be a flat zero-initialised byte array. Frame and page counts are
  arbitrary, including one frame and more frames than pages. The four backing devices are one store that
  gives zeros for a page never written back.
- **The block device and the protocol** (`BackupDisk`, `Outstanding`, `SwapClient`, `SwapInvariants`,
  `SwapClientProof`, `Swap`, `SwapSafety`, `SwapCoherence`, `SwapRequests`, `SwapReads`, `SwapRuns`, `SwapAnswers`,
  `SwapRecorded`, `SwapChoice`, `SwapStale`, `SwapCounters`, `SwapRounds`, `SwapDrain`, `SwapProgress`, `SwapStaleRun`,
  and for the slab maps `SwapTidy`, `SwapTidyProof`, `SwapSolo`, `SwapTidyRuns`, `SwapOwed`, `SwapEvictRun`,
  `SwapLateRun`). Any number of clients and daemons, one connection between each pair, as a state machine. A run is any
  interleaving of requests, RDMA operations landing, the disk queue, mapping operations, eviction rounds, allocation
  at the daemons, connections breaking and the disconnect handler. All results over runs speak of one predicate,
  `SwapSafety.Reaches`, whose last argument says which steps the run may take.
- **The daemon** (`Counting`, `DaemonTables`, `Daemon`, `RandomProbe`, `EvictionRound`, `UnevenShares`, `EvictMem`).
  The session of `rdma-common.c` as a class over its table arrays, with the loops of the handlers and of an eviction round.
- **Pieces of the client as objects** (`SlabMaps`, `DrainScan`, `BioQueue`, `Bitmap`, `ContextPool`,
  `ActivityReport`, `ServerChoice`). The loops over the slab maps, the drain scan under interference, the
  bio queue, the packed bitmap, the context free stack, the activity report and the choice of a server.

## What the protocol model assumes

- Requests outstanding at the same time do not overlap on a page: a write starts only when no RDMA operation
  and no queued read touches its pages (`BackupDisk.NoOverlap`), a read only when no RDMA write does. Writes
  already queued for the disk may be overwritten by later ones.
- Reads are one page; a write spans at most two slabs.
- Looking up a slab and marking the context in flight is one step. The source covers that window with a
  short sleep.
- A context's disk copy ends after its RDMA write.
- A client has one mapping operation under way at a time, and its eviction thread takes up an EVICT when it has
  ended its loop. Which slab an operation is begun on is as in the source: the trigger tests its switch and that
  the slab has no server (`SwapClient.TriggerMaps`), the eviction thread and the disconnect handler map again what
  they have returned without a test (`SwapClient.ThreadMaps`). Ownership, the handshake, coherence and write-through
  need no more; that the maps are inverse and the free index right does (see below).
- A failed server is not connected again. The eviction thread of a connection does not unmap a slot that the
  disconnect handler of the same connection has already returned; there the source would use -1 as an index
  (`SwapSafety.StopLookupInRange` says exactly when).
- A STOP names slots exactly when its size is not zero. Its size is otherwise arbitrary, since the daemon sends
  all connections the same one.
- `SwapClient.Conn.boundSince` is history: it remembers whether a bind was answered since the last EVICT, and no
  step depends on it.
- The replies of a round in `EvictMem` are those of clients whose connections stay up, with no bind answered
  between EVICT and ACTIVITY; `SwapRounds.ReportsHeldInEveryRun` shows that reports are then as `Evict` needs.
- Contexts of all queues of a client towards one server are one pool; connection k of a daemon is client k.

## Where the actions of the protocol model come from

| action | source |
|---|---|
| `SwapClient.AcceptWrite`, `AcceptRead` | `is_mq.c` 425-538, `is_main.c` 127-283 |
| `SwapClient.EndWrite`, `EndRead` | `is_main.c` 827-881 |
| `BackupDisk.Pop` | `is_mq.c` 78-121 |
| `SwapClient.TriggerMaps`, `ThreadMaps`, `StartMapping` | `is_main.c` 1304-1307, 736, 539-542 |
| `SwapClient.SendQuery`, `SendBind`, `GiveUp` | `is_main.c` 1642-1726 |
| `SwapClient.RecvFreeSize`, `RecvInfo` | `is_main.c` 790-803, `is_mq.c` 817-841 |
| `SwapClient.RecvEvict`, `SendActivity`, `RecvStop` | `is_main.c` 684-692, 745-775 |
| `SwapClient.Unmap`, `ScanContext`, `SendDone`, `Forget`, `EvictionEnds` | `is_main.c` 697-740 |
| `SwapClient.FailBegin`, `FailIdle`, `AbandonCtx`, `FailSlot`, `FailEnd`, `Resume` | `is_main.c` 439-544 |
| `Swap.AnswerQuery`, `AnswerBind`, `TakeActivity`, `TakeDone` | `rdma-common.c` 486-573, 660-729 |
| `Swap.SendEvict`, `SendStop` | `rdma-common.c` 353-409, 731-754 |
| `DaemonTables.Drop`, `Grow`, `Destroy` | `rdma-common.c` 172-206, 273-287, 464-476 |

## What turned out false of the code, and exactly when it holds

- *Recorded pages stay right.* While one server's disconnect is handled RDMA is off, and a write inside one slab
  goes to disk without clearing the slab's bit (`is_mq.c` 519-520). If the slab is mapped on another live server,
  a later read returns the old page. `SwapStaleRun.StaleReadIsReachable` gives the run from every safe state with a
  slab on one live server and another server that has been mapped, `SwapStaleRun.StaleReadFromFresh` from every
  fresh system with two servers to map from, and `SwapStaleRun.StaleReadExample` from a concrete one.
  `SwapStale.OffWriteHarmlessExactlyWhenUnrecorded` says when such a write is harmless, and
  `SwapRuns.LoneRunCoherent` that nothing else goes wrong in any run whose disconnects leave no other live server
  mapped. Write-through has no such limit.
- *The slab maps are inverse to each other and free_chunk_index counts the unplaced slabs.* A mapping operation may
  be begun on a slab that still has a slot: the trigger's switch is one for all connections, so the end of one
  eviction (`is_main.c` 740) or disconnect (544) switches it on while another thread is still draining a slab, which
  has no server and passes the trigger's test (1304-1305). Taking the slab in keeps maps and index right exactly when
  it had no slot (`SwapTidyProof.EnterKeepsExactly`), that is, when no connection answers for it any more
  (`SwapTidyProof.UnplacedExactlyWhenNotHeld`). All is right in every run whose evictions and disconnects of a client
  begin one after the other (`SwapTidyRuns.TidyWhenAlone`). With two at once, `SwapLateRun.LateMappingFromFresh` gives
  the run from every fresh system with three servers that can serve it: the index ends up one too low, and the
  slab has a server but no slot, so that a request across two slabs looks up slot -1 (`is_mq.c` 485-486, 497-498). With
  two slabs the index reaches -2 and the returned slab is pushed at -1 (`SwapLateRun.LateMappingExample`).
- *The daemon's counters are the table counts.* A bind that finds no free slab still raises them
  (`DaemonTables.BindCounts`, `EvictMem.BindWithoutSlabExample`), and a round sends every victim connection the
  number of victims of the last one (`rdma-common.c` 405), so that the counters come out right exactly when all
  connections that lose slabs lose equally many (`EvictMem.Evict`, `EvictMem.UnevenRoundExample`). Before the round,
  this is certain exactly when the table does not allow the victims to fall unevenly (`UnevenShares.UnevenExactlyWhen`,
  `EvictMem.UnevenRoundIsPossible`). In the protocol,
  a step keeps them right exactly when it is neither such a bind nor a DONE of another size
  (`SwapCounters.StepCounts`).
- *The eviction thread's reverse lookup is in range.* It is until the disconnect handler of the same connection
  has returned the slot, and not after (`SwapSafety.StopLookupInRange`).

## Model

| member | source | states |
|---|---|---|
| `Clock.ScanFindsFirstUnmarked` | test/simulation/sim_page.h:216-220 | the scan stops at the first unmarked frame in ring order, or at the starting hand when all are marked, after 1 to n moves from a marked hand, clearing exactly the marks it passed |
| `Clock.FaultEvictsFirstUnmarked` | test/simulation/sim_page.h:212-234 | a fault replaces that frame's page and no other |
| `Clock.StepKeepsValid` | test/simulation/sim_page.h:111-136 | every access leaves the page under the hand marked and all resident pages different |
| `Clock.StepIsSecondChance` | test/simulation/sim_page.h:111-136 | every access is a second-chance access, said without a scan: a hit marks its page, makes it dirty if it writes, and changes no other frame and not the hand; a fault passes marked frames, clears their marks and puts the page, marked, in the first unmarked one |
| `Clock.SecondChanceIsStep` | test/simulation/sim_page.h:111-136 | and nothing else is: such an access determines the new clock, its moves and its flushes |
| `Clock.RunIsSecondChances` | test/simulation/sim_page.h:111-136 | so is every run a sequence of such accesses with its costs added up |
| `Clock.AmortisedCost` | test/simulation/sim_page.h:116-133 | over any accesses the hand moves at most n plus one per access, and flushes are at most the writes |
| `Clock.RunPotential` | test/simulation/sim_page.h:216-233 | marks pay for moves and dirty marks for flushes along any run |
| `PagedMemory.FollowIsAhead` | test/simulation/sim_page.h:69-84 | following `cnext` k times steps the frame number by k modulo n |
| `PagedMemory.RingVisitsEachPageOnce` | test/simulation/sim_page.h:69-84 | the ring from any resident page meets every resident page, and each exactly once in a turn |
| `PagedMemory.SweepOne` | test/simulation/sim_page.h:216-220 | one turn of the scan loop over the ring is one turn of the array clock's scan |
| `PagedMemory.RelinkKeepsRing` | test/simulation/sim_page.h:224-233 | relinking keeps the ring, also with a single frame, where the entry behind the hand is the victim itself |
| `PagedMemory.RelinkMatchesClock` | test/simulation/sim_page.h:227-233 | the relinked table is the array clock with one frame replaced |
| `PagedMemory.SwapKeepsBytes` | test/simulation/sim_page.h:222-225 | write-back and load change no page's contents |
| `PagedMemory.TouchKeepsBytes` | test/simulation/sim_page.h:119-135 | marking and writing one byte changes that byte of that page only |
| `PagedMemory.InitPageTable` | test/simulation/sim_page.h:69-81 | the initial table: the first n pages resident in frame order in one ring |
| `PagedMemory.InitialFields` | test/simulation/sim_page.h:69-81 | an initial entry is resident exactly for the first n pages, marked and clean, in the frame of its own number, with the next one modulo n behind it |
| `PagedMemory.Memory.constructor` | test/simulation/sim_page.h:61-84 | the fresh memory mirrors a flat zero memory, every entry of its table is the initial one and its clock is the one with the first pages, all marked and clean |
| `PagedMemory.Memory.PageLoad` | test/simulation/sim_page.h:138-173 | the frame holds the stored page, or zeros, and no other frame changes |
| `PagedMemory.Memory.PageFlush` | test/simulation/sim_page.h:175-210 | the store holds the frame's bytes for the page |
| `PagedMemory.Memory.FollowRing` | test/simulation/sim_page.h:216-220 | the scan loop ends where the array clock's scan ends, after as many moves |
| `PagedMemory.Memory.Sweep` | test/simulation/sim_page.h:216-220 | the same as a whole, with every page's contents unchanged |
| `PagedMemory.Memory.Replace` | test/simulation/sim_page.h:222-233 | the victim is written back if dirty and replaced, every page's contents unchanged |
| `PagedMemory.Memory.PageFault` | test/simulation/sim_page.h:212-234 | a fault is the array clock's fault, changes no page's contents, and counts its moves and flushes |
| `PagedMemory.Memory.Get` | test/simulation/sim_page.h:111-122 | returns the byte of the flat memory, which it leaves unchanged; the page is then marked, and on a hit no other entry and no hand changes |
| `PagedMemory.Memory.Put` | test/simulation/sim_page.h:124-136 | changes one byte of the flat memory and no other; the page is then marked and dirty, and on a hit no other entry and no hand changes |
| `PagedMemory.RunProgram` | test/simulation/sim_page.h:111-234 | any program of gets and puts reads what a flat zero memory gives it; its moves and flushes are exactly those of second-chance accesses from the first pages on, hence within the amortised bounds |
| `BackupDisk.DiskWriteKeepsInv` | Infiniswap/infiniswap_bd/is_mq.c:215-250 | a write queued page by page keeps every accepted page write on disk or queued, once and in order |
| `BackupDisk.RdmaWriteKeepsInv` | Infiniswap/infiniswap_bd/is_main.c:222-283 | so does an RDMA write, whose disk copy points into its context's buffer |
| `BackupDisk.ReadDoneKeepsInv` | Infiniswap/infiniswap_bd/is_main.c:827-852 | a finished read returns its context without touching a buffer the queue needs |
| `BackupDisk.WriteDoneKeepsInv` | Infiniswap/infiniswap_bd/is_main.c:854-881 | a finished write keeps its context out of the pool until the disk copy ends |
| `BackupDisk.AbandonKeepsInv` | Infiniswap/infiniswap_bd/is_main.c:489-515 | the disconnect handler keeps every accepted page write on disk or queued, whichever operation it ends |
| `Outstanding.AbandonWaits` | Infiniswap/infiniswap_bd/is_main.c:489-515 | and it loses no read: as many reads of each page wait after it as before |
| `BackupDisk.PopKeepsInv` | Infiniswap/infiniswap_bd/is_mq.c:101-121 | taking a bio off the queue and ending it keeps all of this |
| `Outstanding.PopWaits` | Infiniswap/infiniswap_bd/is_mq.c:101-121 | it answers the read it takes off and no other |
| `BackupDisk.ContextInOnePlace` | Infiniswap/infiniswap_bd/is_main.c:91-125 | a context of the pool is free, or held by a read in flight, or held by the queued copy of a write, and only one of these |
| `BackupDisk.DiskReadSeesLastWrite` | Infiniswap/infiniswap_bd/is_mq.c:101-121 | when the queue reaches a read, the disk page is the last accepted write of it |
| `SwapInvariants.EnterForward` | Infiniswap/infiniswap_bd/is_mq.c:817-841 | wherever a slab was before, taking it in leaves a forward map whose every entry names a server that has the slab mapped, at the very slot the slot map names |
| `SwapTidy.EnterMaps` | Infiniswap/infiniswap_bd/is_mq.c:817-841 | when the slab had no slot, it keeps the forward and reverse maps inverse to each other |
| `SwapInvariants.LeaveForward` | Infiniswap/infiniswap_bd/is_main.c:703-714 | taking a slot out keeps the forward map right, whatever else serves the slab |
| `SwapTidy.LeaveMaps` | Infiniswap/infiniswap_bd/is_main.c:703-714 | and, when no other slot serves the slab, the maps inverse |
| `SwapTidyProof.HeldStays` | Infiniswap/infiniswap_bd/is_main.c:703-738 | a placed slab stays answered for by exactly one connection |
| `SwapTidyProof.EnterKeepsExactly` | Infiniswap/infiniswap_bd/is_mq.c:817-841 | taking in a slab keeps maps, holders and index right exactly when the slab had no slot; otherwise the index is one too low |
| `SwapTidyProof.UnplacedExactlyWhenNotHeld` | Infiniswap/infiniswap_bd/is_main.c:731-738 | with tidy maps, a slab has no slot exactly when no connection answers for it |
| `SwapTidyProof.ActTidy` | Infiniswap/infiniswap_bd/is_main.c:669-743 | every action keeps maps, holders and index right if mapping operations are begun on slabs without a slot |
| `SwapSolo.SoloBeginsUnplaced` | Infiniswap/infiniswap_bd/is_main.c:1304-1307 | with one eviction or disconnect at work at a time, the tests of the source let no operation begin on a slab with a slot |
| `SwapSolo.ActSolo` | Infiniswap/infiniswap_bd/is_main.c:702-740 | every action keeps maps, index and this order of work, with the trigger off exactly while an eviction or a disconnect is at work, if they begin alone |
| `SwapClientProof.UnmapKeeps` | Infiniswap/infiniswap_bd/is_main.c:703-714 | unmapping a victim keeps the client invariant |
| `SwapClientProof.ScanSound` | Infiniswap/infiniswap_bd/is_main.c:624-667 | when the drain scan is through, no operation in flight targets a victim, whatever completed or started meanwhile |
| `SwapClientProof.FinishKeeps` | Infiniswap/infiniswap_bd/is_main.c:716-727 | clearing the bitmaps and sending DONE keeps the client invariant |
| `SwapClientProof.ForgetKeeps` | Infiniswap/infiniswap_bd/is_main.c:731-738 | returning an evicted slab keeps it, also when the slab has been mapped again meanwhile |
| `SwapClientProof.FailBeginKeeps` | Infiniswap/infiniswap_bd/is_main.c:467-482 | the first part of the disconnect handler keeps it |
| `SwapClientProof.FailSlotKeeps` | Infiniswap/infiniswap_bd/is_main.c:518-526 | returning a failed server's slab keeps it |
| `SwapClientProof.InfoKeeps` | Infiniswap/infiniswap_bd/is_mq.c:817-841 | mapping a slab handed out keeps it, whether or not the slab is still being evicted elsewhere |
| `SwapClientProof.ActKeeps` | Infiniswap/infiniswap_bd/is_main.c:669-743 | every action of a client, under the tests the source makes, keeps its invariant and changes none of the slots it claims on live connections |
| `SwapClientProof.ActKeepsDisk` | Infiniswap/infiniswap_bd/is_mq.c:461-532 | every action of a client is write-through |
| `Swap.StepSafe` | Infiniswap/infiniswap_daemon/rdma-common.c:521-573 | every step of clients, daemons, RDMA and broken connections keeps the system invariant |
| `SwapSafety.RunSafe` | Infiniswap/infiniswap_bd/is_main.c:1752-1760 | every state of every run satisfies it |
| `SwapSafety.RunBegins` | Infiniswap/infiniswap_bd/is_main.c:1752-1760 | a run begins in every fresh system |
| `SwapSafety.RunCanGoOn` | Infiniswap/infiniswap_bd/is_main.c:669-743 | and safety stops no run: a run goes on with every enabled step |
| `SwapSafety.MappedIsOwned` | Infiniswap/infiniswap_bd/is_mq.c:830-837 | on a live connection, a slab the client believes mapped is malloced and owned by that connection |
| `SwapSafety.SlabServesOne` | Infiniswap/infiniswap_daemon/rdma-common.c:670-680 | no slab serves two session slabs or two clients |
| `SwapSafety.FlightIsOwned` | Infiniswap/infiniswap_bd/is_main.c:153-155 | an operation that can still land is on a slab its client owns |
| `SwapSafety.EvictionHandshake` | Infiniswap/infiniswap_daemon/rdma-common.c:486-519 | when a DONE is taken, no operation of any client on its slabs is in flight, and none can start |
| `SwapSafety.HandshakeInEveryRun` | Infiniswap/infiniswap_bd/is_main.c:682-741 | the same in every reachable state |
| `SwapSafety.OwnedUntilReturned` | Infiniswap/infiniswap_daemon/rdma-common.c:486-519 | a slab leaves its owner only by a DONE that names it or the destruction of the connection |
| `SwapSafety.StopLookupInRange` | Infiniswap/infiniswap_bd/is_main.c:704-708 | the lookup of a slot a STOP names is in range exactly when the slot is still mapped, which it is as long as the server has not failed |
| `SwapTidyRuns.TidyInEveryRun` | Infiniswap/infiniswap_bd/is_main.c:731-736 | in every run whose mapping operations are begun on slabs without a slot, maps, holders and index are right |
| `SwapTidyRuns.TidyWhenAlone` | Infiniswap/infiniswap_bd/is_main.c:1304-1307 | in every run whose evictions and disconnects of a client begin one after the other, so they are, and no enabled operation is on a slab with a slot |
| `SwapTidyRuns.FreeIndexInBounds` | Infiniswap/infiniswap_bd/is_main.c:731-736 | then the free index plus one is the number of unplaced slabs and a push stays inside the list |
| `SwapTidyRuns.CrossLookupInRange` | Infiniswap/infiniswap_bd/is_mq.c:483-498 | and a slab with a server has a slot for the cross-slab lookup |
| `SwapOwed.AllMappedAgainFirst` | Infiniswap/infiniswap_bd/is_main.c:731-740 | in every such run, an eviction thread or a disconnect handler switches the trigger on only when it has begun to map again every slab the STOP named or the failed server had |
| `SwapEvictRun.RoundGoesThrough` | Infiniswap/infiniswap_daemon/rdma-common.c:353-409 | from every state with nothing under way on a connection, a round of the daemon leads to the unmapping of a mapped slot |
| `SwapEvictRun.DrainGoesThrough` | Infiniswap/infiniswap_bd/is_main.c:716-738 | with nothing in flight, the eviction thread then gets as far as having returned the slab |
| `SwapLateRun.LateMappingFromFresh` | Infiniswap/infiniswap_bd/is_main.c:1304-1307 | from every fresh system with three servers that can serve it, a run with two evictions at once in which a slab with a slot passes the trigger's test, is mapped, leaves the index one too low, and ends with a server but no slot |
| `SwapLateRun.LateMappingExample` | Infiniswap/infiniswap_bd/is_main.c:733-735 | for a concrete client of two slabs the index reaches -2 and the push is at -1 |
| `SwapCoherence.LandWriteData` | Infiniswap/infiniswap_bd/is_main.c:854-881 | a landed write records exactly pages that hold the last accepted write |
| `SwapCoherence.RemoteWriteData` | Infiniswap/infiniswap_bd/is_mq.c:510-521 | accepting a remote write keeps every other recorded page right |
| `SwapCoherence.LaunchReadData` | Infiniswap/infiniswap_bd/is_mq.c:522-529 | a read posted for a recorded page will find the last accepted write |
| `SwapRequests.CrossPages` | Infiniswap/infiniswap_bd/is_mq.c:478-504 | the two ranges a cross-slab write clears are exactly its pages |
| `SwapRequests.CrossWriteCoherent` | Infiniswap/infiniswap_bd/is_mq.c:478-507 | a cross-slab write leaves none of its pages recorded and keeps the others right |
| `SwapRequests.UnmappedUnrecorded` | Infiniswap/infiniswap_bd/is_mq.c:461-475 | a slab without a server or without a slot has no recorded page that a request could reach, so a write to disk is harmless |
| `SwapReads.StepData` | Infiniswap/infiniswap_bd/is_mq.c:461-533 | every step but a write with RDMA off onto a recorded page keeps the recorded pages that requests can reach equal to the last accepted write |
| `SwapReads.RemoteReadReturnsLastWrite` | Infiniswap/infiniswap_bd/is_main.c:827-852 | where an RDMA read looks, the last accepted write of its page is |
| `SwapReads.DiskReadReturnsLastWrite` | Infiniswap/infiniswap_bd/is_mq.c:86-121 | so is what a queued read finds on disk |
| `SwapRuns.StepLog` | Infiniswap/infiniswap_bd/is_mq.c:461-532 | each accepted write is logged once and nothing else is |
| `SwapRuns.WriteThroughInEveryRun` | Infiniswap/infiniswap_bd/is_mq.c:461-532 | in every run, disconnects included, each accepted page write is on disk or queued exactly once, in order, and the queue applied to the disk is the memory of all accepted writes |
| `SwapRuns.ContextsInEveryRun` | Infiniswap/infiniswap_bd/is_main.c:91-125 | in every run no context is lost or in two hands: each is in exactly one of the three places |
| `SwapRuns.StepOff` | Infiniswap/infiniswap_bd/is_main.c:467-482 | while RDMA is off no live connection has a slab mapped, if disconnects leave no other server mapped |
| `SwapRuns.LoneRunCoherent` | Infiniswap/infiniswap_bd/is_mq.c:461-533 | in every such run recorded pages are right in every state |
| `SwapRuns.RemoteReadsInEveryRun` | Infiniswap/infiniswap_bd/is_mq.c:522-529 | in every such run a remote read looks where the last write accepted in the run is, or the first disk page |
| `SwapRuns.DiskReadsInEveryRun` | Infiniswap/infiniswap_bd/is_mq.c:522-532 | in every run a disk read does |
| `SwapAnswers.ReadIsPosted` | Infiniswap/infiniswap_bd/is_mq.c:522-531 | an accepted read is posted once and for its own page, as the last bio of the queue or as one RDMA read in flight, and nothing else changes |
| `SwapAnswers.StepWaits` | Infiniswap/infiniswap_bd/is_main.c:489-515 | every step keeps, page by page, the number of reads that wait in flight or in the queue, plus the one it accepts and minus the one it answers |
| `SwapAnswers.LandedReadIsLastWrite` | Infiniswap/infiniswap_bd/is_main.c:827-852 | in every run whose disconnects leave no other server mapped, the buffer a landed read leaves behind is the last write of the page it was accepted for |
| `SwapAnswers.ReadsInEveryRun` | Infiniswap/infiniswap_bd/is_mq.c:461-533 | in every run, disconnects included, the accepted reads of each page are those answered and those that wait, and what the disk answers is the last write accepted before |
| `SwapAnswers.ReadsInEveryLoneRun` | Infiniswap/infiniswap_bd/is_main.c:827-852 | in every run whose disconnects leave no other server mapped, all answers are |
| `SwapRecorded.LandedIsRecorded` | Infiniswap/infiniswap_bd/is_main.c:854-881 | a landed write records exactly its pages at its slot and changes no other bit |
| `SwapRecorded.LandedIsReadRemotely` | Infiniswap/infiniswap_bd/is_main.c:854-881 | so that a read of one of them next goes to that slot |
| `SwapRecorded.BlankInEveryRun` | Infiniswap/infiniswap_bd/is_main.c:716-721 | in every run a slot that is neither mapped nor being drained records nothing |
| `SwapStale.OffWriteHarmlessExactlyWhenUnrecorded` | Infiniswap/infiniswap_bd/is_mq.c:519-520 | with RDMA off, writes of given pages keep recorded pages right for all data exactly when none of the pages is recorded at the slot of a live server that the maps lead to |
| `SwapStale.StaleReadFollows` | Infiniswap/infiniswap_bd/is_mq.c:519-529 | otherwise, for every such state, the next read after the handler ends goes to remote memory and finds the old page |
| `SwapStaleRun.StaleReadExample` | Infiniswap/infiniswap_bd/is_mq.c:519-529 | from a concrete fresh system of two slabs and two servers a run leads to a read that brings back an overwritten page |
| `SwapStaleRun.StaleReadIsReachable` | Infiniswap/infiniswap_bd/is_mq.c:510-533 | from every safe resting state with a slab mapped on a live server and another server that has been mapped and does not hold the slab, whatever else it holds, a run in which that one breaks leads to a read that brings back an overwritten page |
| `SwapStaleRun.StaleReadFromFresh` | Infiniswap/infiniswap_bd/is_main.c:460-529 | so it does from every fresh system with a client of two slabs and two servers that offer one |
| `SwapCounters.StepCounts` | Infiniswap/infiniswap_daemon/rdma-common.c:486-519 | a step keeps every counter of every daemon equal to its count exactly when it is neither a bind that finds no slab nor a DONE whose size is not the number of slabs it names |
| `SwapCounters.CountsInEveryRun` | Infiniswap/infiniswap_daemon/rdma-common.c:719-729 | in every run whose binds find a slab and whose STOPs carry the number of slabs they name, what a daemon advertises is the number of slabs it could hand out |
| `SwapCounters.DoneRepeatsSize` | Infiniswap/infiniswap_bd/is_main.c:716-727 | a DONE carries the right size if its STOP did |
| `SwapCounters.DoneNamesChosen` | Infiniswap/infiniswap_daemon/rdma-common.c:403-409 | in every run a DONE that waits at the daemon names exactly the slots, and carries the size, that the daemon last chose on the connection |
| `SwapCounters.QueryIsAnswered` | Infiniswap/infiniswap_daemon/rdma-common.c:719-729 | and a QUERY is answered with that number |
| `SwapRounds.StepRounds` | Infiniswap/infiniswap_bd/is_main.c:684-692 | every step keeps what an EVICT, its report and the slabs handed out before it have to do with each other on the ordered channel |
| `SwapRounds.ReportIsWhatIsOwned` | Infiniswap/infiniswap_bd/is_main.c:296-322 | in every run, a client that has reported, with no bind answered since its EVICT, has named exactly the slabs the daemon gives it |
| `SwapRounds.ReportsHeldInEveryRun` | Infiniswap/infiniswap_daemon/rdma-common.c:359-378 | so the reports of such clients are, in every run, what the eviction round takes for granted of them |
| `SwapProgress.OperationGoesThrough` | Infiniswap/infiniswap_bd/is_main.c:1670-1726 | from every reached state with an operation begun and an idle connection to a daemon that advertises a free slab, its six steps are a run, and it maps the slab to the daemon's first free one and changes nothing else |
| `SwapProgress.MappingGoesThrough` | Infiniswap/infiniswap_bd/is_main.c:1304-1307 | so it is with the trigger's beginning of the operation in front |
| `SwapChoice.BindsToLargest` | Infiniswap/infiniswap_bd/is_main.c:1670-1712 | in every run, a client binds only to a server whose answer is not zero and not below any other received since the operation began, and for the slab it began on |
| `SwapChoice.EntersBegunSlab` | Infiniswap/infiniswap_bd/is_mq.c:817-841 | and the slab an INFO_SINGLE enters is that one |
| `SwapChoice.NeverAskedAgain` | Infiniswap/infiniswap_bd/is_main.c:1642-1678 | in every run a server whose disconnect has been handled is not asked or bound to again |
| `SwapChoice.ChoiceIsBind` | Infiniswap/infiniswap_bd/is_main.c:1698-1712 | what the loops of `ServerChoice.ChooseServer` choose is what the protocol allows: the server chosen can be bound to, and if none is chosen no server can |
| `DaemonTables.AdvertisedIsFree` | Infiniswap/infiniswap_daemon/rdma-common.c:719-729 | the advertised size is the number of free slabs, positive exactly when a bind finds one |
| `DaemonTables.BindCounts` | Infiniswap/infiniswap_daemon/rdma-common.c:660-686 | a bind keeps the counters right exactly when a slab is free |
| `DaemonTables.ReleaseCounts` | Infiniswap/infiniswap_daemon/rdma-common.c:486-519 | a DONE keeps them right exactly when its size is the number of slabs it names |
| `DaemonTables.DestroyCounts` | Infiniswap/infiniswap_daemon/rdma-common.c:172-206 | destroying a connection keeps them right and leaves it no slab |
| `DaemonTables.ChunkSizesAddUp` | Infiniswap/infiniswap_daemon/rdma-common.c:314-324 | the connections' counters add up to the mapped slabs |
| `Daemon.Session.constructor` | Infiniswap/infiniswap_daemon/rdma-common.c:213-252 | the initial session has right counters and exactly the number of slabs the thresholds give for the free memory |
| `Daemon.Session.BuildConnection` | Infiniswap/infiniswap_daemon/rdma-common.c:109-122 | the first idle entry is taken, or none, and no table changes |
| `Daemon.Session.DestroyConnection` | Infiniswap/infiniswap_daemon/rdma-common.c:172-206 | the loop is the table transition, and the session stays valid |
| `Daemon.Session.SendSingleMr` | Infiniswap/infiniswap_daemon/rdma-common.c:660-686 | the first free slab is handed out, if any, and the connection's own map agrees with the owner table |
| `Daemon.Session.RecvDone` | Infiniswap/infiniswap_daemon/rdma-common.c:486-519 | exactly the named slabs are freed; the handler's check reports exactly a wrong size |
| `Daemon.Session.FreeMemSize` | Infiniswap/infiniswap_daemon/rdma-common.c:719-729 | the answer to a QUERY is the number of free slabs |
| `Daemon.Session.EvictUnmapped` | Infiniswap/infiniswap_daemon/rdma-common.c:272-287 | unmapped slabs go first, lowest first; when that is not enough the size equals the mapped size |
| `Daemon.Session.Expand` | Infiniswap/infiniswap_daemon/rdma-common.c:460-477 | exactly the computed number of slabs is allocated, the size stays within the table, also when the number is zero |
| `Daemon.Session.Tick` | Infiniswap/infiniswap_daemon/rdma-common.c:433-479 | when and how much a sample makes the daemon evict or expand, and the adjusted sample |
| `RandomProbe.Probe` | Infiniswap/infiniswap_daemon/rdma-common.c:329-334 | from every draw the probe ends at the first eligible entry from there on |
| `RandomProbe.Draw` | Infiniswap/infiniswap_daemon/rdma-common.c:328-336 | drawing so many entries picks that many different eligible ones |
| `EvictionRound.Candidates` | Infiniswap/infiniswap_daemon/rdma-common.c:289-350 | the consistency checks never report, the number to go is cut exactly when fewer slabs are mapped, and the connections asked hold all mapped slabs, or at least two more than are to go |
| `EvictionRound.Gather` | Infiniswap/infiniswap_daemon/rdma-common.c:359-378 | whatever is reported, the list has the nonzero entries of the connections asked, in order, and the check reports exactly a wrong number of them |
| `EvictionRound.EntriesExactly` | Infiniswap/infiniswap_daemon/rdma-common.c:359-378 | when the reports name what the connections hold, that is one entry for each of their slabs, with its reported activity |
| `EvictionRound.BringLeast` | Infiniswap/infiniswap_daemon/rdma-common.c:381-390 | the inner loop permutes the list and brings the least active of the rest to its place |
| `EvictionRound.ChooseVictims` | Infiniswap/infiniswap_daemon/rdma-common.c:380-401 | the list is permuted, its first entries are in order and no more active than the rest, and each is on its holder's STOP list |
| `EvictMem.PlanStops` | Infiniswap/infiniswap_daemon/rdma-common.c:289-401 | enough slabs are asked about, with a connection's slab all its slabs; the victims are the wanted number of them, none left alone is less active, and each connection's STOP list is its share |
| `EvictMem.StopAll` | Infiniswap/infiniswap_daemon/rdma-common.c:403-409 | the STOPs and their DONEs release every connection's share, counting the size sent to all |
| `EvictMem.RoundCounts` | Infiniswap/infiniswap_daemon/rdma-common.c:403-409 | the counters are right after a round exactly when each DONE carried the size of its own share |
| `EvictMem.Evict` | Infiniswap/infiniswap_daemon/rdma-common.c:254-412 | a round frees exactly the slabs wanted, unmapped first and lowest first, then the least active of enough asked about; the counters are right exactly when the shares are even, which is certain beforehand unless the table allows uneven ones |
| `UnevenShares.UnevenExactlyWhen` | Infiniswap/infiniswap_daemon/rdma-common.c:399-405 | some slabs of a given number fall unevenly on the connections exactly when they are three or more, of several holders, and either all that are mapped, held in different numbers, or not all, with a holder of two |
| `EvictMem.UnevenRoundIsPossible` | Infiniswap/infiniswap_daemon/rdma-common.c:399-405 | and then some reports make a round end so |
| `EvictMem.UnevenRoundExample` | Infiniswap/infiniswap_daemon/rdma-common.c:405-405 | two victims on one connection and one on another leave the counters wrong after the whole round |
| `EvictMem.BindWithoutSlabExample` | Infiniswap/infiniswap_daemon/rdma-common.c:670-682 | a bind without a free slab makes the advertised size negative |
| `SlabMaps.SessionMaps.SingleChunkInit` | Infiniswap/infiniswap_bd/is_mq.c:817-841 | the loop enters the first tagged slot, which is the client's action on INFO_SINGLE |
| `SlabMaps.SessionMaps.UnmapVictims` | Infiniswap/infiniswap_bd/is_main.c:703-714 | the loop leaves the arrays as unmapping the tagged slots one by one does |
| `SlabMaps.UnmappedByActs` | Infiniswap/infiniswap_bd/is_main.c:703-714 | and that is a sequence of client actions |
| `SlabMaps.VictimsCanUnmap` | Infiniswap/infiniswap_bd/is_main.c:703-714 | which the protocol allows for every slot a STOP names |
| `SlabMaps.SessionMaps.ReturnEvicted` | Infiniswap/infiniswap_bd/is_main.c:731-738 | the loop leaves the arrays as returning the evicted slabs one by one does |
| `SlabMaps.ForgottenByActs` | Infiniswap/infiniswap_bd/is_main.c:731-738 | and that is a sequence of client actions |
| `SlabMaps.EvictedCanReturn` | Infiniswap/infiniswap_bd/is_main.c:731-738 | while the maps are tidy each can be returned in its turn, with room on the list |
| `SlabMaps.SessionMaps.DisallowRequests` | Infiniswap/infiniswap_bd/is_main.c:472-482 | after the loop no slab of the server is in the forward map, and all others are |
| `SlabMaps.SessionMaps.ReturnFailed` | Infiniswap/infiniswap_bd/is_main.c:518-526 | the loop leaves the arrays as returning the failed server's slabs one by one does |
| `SlabMaps.FailedByActs` | Infiniswap/infiniswap_bd/is_main.c:518-526 | and that is a sequence of client actions |
| `SlabMaps.FailedCanReturn` | Infiniswap/infiniswap_bd/is_main.c:518-526 | while the maps are tidy each can be returned in its turn, with room on the list, and then none is left |
| `DrainScan.Pass` | Infiniswap/infiniswap_bd/is_main.c:637-658 | a pass that gets through leaves no context on an unmapped slot behind it, and one given up has seen such a context |
| `DrainScan.WaitInFlight` | Infiniswap/infiniswap_bd/is_main.c:624-667 | from its return on no context in flight targets an unmapped slab, although each was looked at at a different moment; when patience ends first, such a context was there at the last look |
| `SwapDrain.StepMeanwhile` | Infiniswap/infiniswap_bd/is_main.c:624-667 | while a connection drains, every step of the system is interference the scan allows |
| `SwapDrain.RunMeetsRely` | Infiniswap/infiniswap_bd/is_main.c:624-667 | so along every run what the scan sees meets its rely condition |
| `BioQueue.StackDevice.QueuePages` | Infiniswap/infiniswap_bd/is_mq.c:215-250 | one bio per page is queued in order, or none when the device is not active |
| `BioQueue.StackDevice.QueueBio` | Infiniswap/infiniswap_bd/is_mq.c:122-145 | the bio is queued last, or not at all when the device is not active |
| `BioQueue.StackDevice.Take` | Infiniswap/infiniswap_bd/is_mq.c:101-121 | bios leave in the order they came |
| `BioQueue.QueuedWriteIsDiskWrite` | Infiniswap/infiniswap_bd/is_mq.c:147-181 | what is queued is exactly the accepted page writes |
| `BioQueue.QueuedCopyIsRdmaWrite` | Infiniswap/infiniswap_bd/is_main.c:184-203 | the one bio of an RDMA write's copy stands for exactly its page writes |
| `Bitmap.OneBitChanges` | Infiniswap/infiniswap_bd/is_mq.c:875-910 | the word operations change one bit |
| `Bitmap.OnePageChanges` | Infiniswap/infiniswap_bd/is_mq.c:875-910 | changing a bit changes one page of the recorded set |
| `Bitmap.PageBitmap.Test` | Infiniswap/infiniswap_bd/is_mq.c:898-905 | tests membership in the recorded set |
| `Bitmap.PageBitmap.GroupSet` | Infiniswap/infiniswap_bd/is_mq.c:880-888 | adds exactly the pages of the range |
| `Bitmap.PageBitmap.GroupClear` | Infiniswap/infiniswap_bd/is_mq.c:889-897 | removes exactly the pages of the range |
| `Bitmap.PageBitmap.Reset` | Infiniswap/infiniswap_bd/is_mq.c:912-915 | nothing is recorded |
| `ContextPool.HeldByOperation` | Infiniswap/infiniswap_bd/is_main.c:91-125 | a context is off the stack exactly when a read in flight or a queued copy of a write holds it |
| `ContextPool.TakeMirrors` | Infiniswap/infiniswap_bd/is_main.c:91-109 | taking the top of the stack for an operation keeps the stack the device's free contexts |
| `ContextPool.GiveMirrors` | Infiniswap/infiniswap_bd/is_main.c:111-125 | so do giving it back when a read is done and when the disk has a write's copy |
| `ContextPool.FreeContexts.Get` | Infiniswap/infiniswap_bd/is_main.c:91-109 | none exactly when all are held, else one that was not held |
| `ContextPool.FreeContexts.Insert` | Infiniswap/infiniswap_bd/is_main.c:111-125 | giving back a held context never runs past the list |
| `ActivityReport.FilteredIsCounter` | Infiniswap/infiniswap_bd/is_main.c:1300-1302 | a counter is a multiple of four, however the sum wraps around |
| `ActivityReport.FilteredAllCounters` | Infiniswap/infiniswap_bd/is_main.c:1291-1302 | after any round all counters are |
| `ActivityReport.TriggerRound` | Infiniswap/infiniswap_bd/is_main.c:1291-1302 | the loop leaves in every place the weighted sum of the old counter and the operations counted, modulo 2^64, which is a multiple of four |
| `ActivityReport.SwapTwice` | Infiniswap/infiniswap_daemon/rdma-common.c:45-52 | the byte swap undoes itself |
| `ActivityReport.ReportIsExact` | Infiniswap/infiniswap_bd/is_main.c:307-315 | an entry is nonzero exactly for a mapped slot, and decodes to the counter plus one |
| `ActivityReport.SendActivity` | Infiniswap/infiniswap_bd/is_main.c:296-322 | the loop builds that report |
| `ServerChoice.Select` | Infiniswap/infiniswap_bd/is_main.c:1642-1668 | all available servers are asked, or the set number of different ones |
| `ServerChoice.BringMost` | Infiniswap/infiniswap_bd/is_main.c:1698-1707 | the largest amount comes first and every amount stays with its server through the exchanges |
| `ServerChoice.ChooseServer` | Infiniswap/infiniswap_bd/is_main.c:1642-1712 | the servers asked are different and available, all of them or the set number; the one bound to was asked and has the most free memory of those asked, not zero; none only when none is available or the most is zero |

## Left out

- RDMA verbs, connection management, DMA mapping and completion polling; a posted operation lands or its connection breaks.
- configfs, setup scripts, block-device registration, benchmarks, and both setup_ib.h files.
- The concurrent parts of the client and the protocol are a state machine on values: update in place, aliasing and locks are not modelled there. The loops over the same maps are modelled on arrays in `SlabMaps`.
- Liveness: lost wake-ups, sleeps, and whether a wait ever ends. `DrainScan.WaitInFlight` takes the number of passes it has patience for and says whether one got through.
- Pages of the device are opaque values; `BackupDisk.Page` does not fix their length.
- The BIND and INFO messages for several slabs at once, which the client never sends, and the contents of `unmapped_chunk_list` beyond its bound.
- `is_mq.c` 835: taking in a slab sets `c_state` to C_READY, which can overwrite a C_EVICT or C_STOP that the eviction thread has not seen; here the thread sees every message.
- The one send buffer of a daemon connection: here an answer to QUERY or BIND during a round does not overwrite an EVICT or STOP that is being sent.
- `mapped_cb_num`, which is adjusted in different units when mapping and when evicting.
- Mapping an evicted slab again inside the eviction thread is the mapping operation of the protocol model, not a call inside the loop.
- Registering contexts for a new server, the trigger threshold, and the assignment of queues to processors.
- `Daemon`: the thresholds and sizes are the defaults of the header, not parameters; `PagedMemory`: the page size is the simulator's constant.
- The floating-point filter of `free_mem`: `Daemon.Session.Tick` takes the filtered sample as any integer.
- The freeing and re-creation of context pools in the disconnect handler, and contexts that finish after it.
- `Daemon.Session`: the memory regions and keys themselves; a connection beyond the table gets no index.
- `ServerChoice.ChooseServer`: a server that fails between being selected and being queried.
- ActivityReport.TriggerRound: takes the counted operations as a sequence instead of reading and zeroing them under their locks.
