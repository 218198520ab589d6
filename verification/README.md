# Proofs about gpupipe's shared-memory transport and run protocol

gpupipe runs a pipeline as stages of worker processes joined by queues in shared
memory. This project models the parts of it where processes share state and may
be killed at any point, and proves what the rest of the program relies on:

| files | what they model |
|---|---|
| `RingLayout`, `RingCrash`, `Ring` | the byte ring under every queue: records and pads in an array of bytes, the same operations as single stores with a death between any two, and the operations as methods of a class over the bytes |
| `WakeProtocol` | who sleeps on the ring and who wakes whom: sequence words and waiting counts under the lock |
| `SpaceWaits` | producers that wait for slots, ring bytes or disk space, and how far one wake per pop goes |
| `PidMutex` | the lock word that holds its owner's pid and is taken over from dead owners |
| `Spill`, `SpillOwners` | messages too big for the ring: names, records, objects and files; and who owns an object at any time, across processes and teardown |
| `SizeClass`, `PayloadStore`, `PayloadRuns`, `PayloadCalls`, `StoreCap` | the payload store: size classes, blocks and free lists with reference counts, what each call on it comes to, and its byte cap under races |
| `Views`, `SharedArrays` | numpy arrays passed by handle: strided views, the check before forwarding, copying; and the same arrays over the running store |
| `Channels` | chunking output and input channels, the retrying put, what is encoded and loaded |
| `Flow`, `Pipeline`, `PipelineOrder` | whole pipeline runs: any stages, workers and readers, End sentinels and done events; and the order of items where there is one worker at each stage |
| `Sequential`, `SequentialOrder` | the single-process runner: one worklist with batches, run() stages and pushes back; and the order in which its turns are taken |
| `Scavenger` | the GPU scavenger's park/hold/freeze handshake with a worker |

Operations of one process that update memory, fields or lists in place are
methods of classes (`Ring.RingQueue`, `Spill.SpillQueue`, `Channels.Queue`,
`Channels.OutputChannel`, `Channels.InputChannel`, `Sequential.Runner`), proved
against functions of the state. Protocols between processes are state machines:
a state, actions with their guards, one function that performs an action, and
theorems about every sequence of enabled actions. A killed process is an action
like any other. History variables (named as such in the files) record what
happened and guard nothing.

`dafny verify dfyconfig.toml` checks everything.

## What turned out not to hold

Where the code does less than its comments say, the model follows the code, a
lemma gives a run, and another says exactly when the promise holds.

- Nothing repairs the item count of an empty ring. rust/src/ring.rs:268-272 resyncs
  it there, but both `get` and `get_many` only pop once `wait_for_items` has seen a
  record (lines 302-308), so the resync runs only at the end of a `get_many` that
  emptied the ring (`RingCrash.ResyncRepairs`). `RingCrash.KilledConsumersWedge`:
  `maxsize` consumers killed between their two stores leave an empty queue that
  refuses every put; `RingCrash.EmptyRingAccepts`: an empty ring accepts a record of
  up to half its bytes if and only if its count is below `maxsize`;
  `RingCrash.WedgedForGood`: no put, get or get_many ever ends it.
- "Capacity is exactly `maxsize` items" (rust/src/ring.rs:9-10) is up to the ring's
  bytes: `Spill.SpillQueue.Put` says with a free slot a message is queued if and
  only if it fits inline or its small spill record fits.
- A put that is not queued can leave a file behind: writing it may fail once it has
  been created (rust/src/ring.rs:213-222), and then nothing discards it before
  teardown. `Spill.SpillQueue.Put` says exactly when; `SpillOwners.EveryRetryLeavesAFile`:
  a put that waits on a full disk can leave one with every try;
- A get can fail after its record is gone: `spill_read` maps the object before it
  removes its name (rust/src/ring.rs:96-102), so one that cannot be mapped stays, and
  `get_many` drops the records behind it, with their objects (lines 617-619).
  `Spill.SpillQueue.Get` and `Spill.SpillQueue.GetMany` say exactly what is lost;
  `SpillOwners.FailedReadLeavesAll`: one such failure can lose k messages and leave k
  objects. `SpillOwners.LeftoversExactly`: with nobody at work, nothing but the records'
  objects is there if and only if no write failed after creating its file, no read
  failed on an object in shared memory or before more spills, and no process was
  killed that had an object.
- Blocks of the payload store leak without any death. A thread that cannot map the
  segment its new block is in returns with an error after the lock is released
  (rust/src/store.rs:352), and the block is in nobody's hands
  (`PayloadRuns.AttachFailureLeaks`); a receiver that cannot map one, or a message that is
  dropped, takes its reference with it (line 362). `PayloadRuns.LostExactly`: a block is
  lost if and only if one of these happened or a thread was killed that had a block
  or a reference; `PayloadRuns.LostForGood`: it is never handed out again.
- One wake per pop is not always enough for producers (rust/src/ring.rs:290-299).
  `SpaceWaits.OnePopForTwo`: one pop makes room for two and wakes one, and the other
  sleeps on beside its room until its slice ends; `SpaceWaits.PopLeavesOneAsleep` says
  exactly when a pop does that, and `SpaceWaits.NobodyLeftAsleep` that it happens in no
  run whose pops each make room for at most one. A producer waiting for disk space
  sleeps on the same word uncounted and can take that wake
  (`SpaceWaits.DiskWaiterTakesTheWake`).
- A record header holds 32 bits of length, so a longer inline payload would be cut
  (`RingLayout.HeaderLengthSurvives`); only rings of 16 GiB and more could have one.
- The store's cap holds up to one regular segment: its check and its payment are two
  steps and dedicated allocations do not take the lock (`StoreCap.CapUnderRaces`,
  `StoreCap.CapCanBeExceeded`). What keeps the cap exactly is broken by those
  dedicated allocations, and no other step, that pass their own check in between
  without fitting beside the segment under way (`StoreCap.StepKeepsCapped`,
  `StoreCap.CapWithoutRaces`). A thread killed between creating and paying for a
  segment adds one more segment each.
- A worker may leave an item behind: its empty poll and its look at `upstream_done`
  are two reads (src/pipe/workers.py:869-877), and however many empty polls it
  waits for, a last item can arrive in between (`Pipeline.LateItemIsStranded`). What
  is delivered and what is stranded always add up (`Pipeline.RunAccounts`). A queue
  into a stage ends up without an item if and only if one of the stage's workers
  left while it held none (`Pipeline.StrandedStages`); by the accounts everything is
  delivered if and only if what is stranded leads to no output
  (`Pipeline.DeliveredExactly`). With
  poll and look in one step nothing is stranded (`Pipeline.AtomicPollsLoseNothing`).
- The sequential runner drops what a root's list holds behind an End, the parallel one
  sends it (`Sequential.RootsAgree`), though the former is to behave like the latter
  (src/pipe/sequential.py:3-5).
- A worker that acks a park request after the request timed out can wait until the next
  foreign process shows up (`Scavenger.LateAckStrands`, `Scavenger.StrandedStays`).
  `Scavenger.StrandedExactly`: a run strands it if and only if the ack comes between two
  polls with the worker not frozen, or before a poll that neither asked it nor finds
  it using the GPU.

## Model

| member | source | states |
|---|---|---|
| RingLayout.AlignedIsMultiple | rust/src/ring.rs:56-58 | offsets built by the recursive notion of alignment are exactly the multiples of 8 |
| RingLayout.Align8IsMasking | rust/src/ring.rs:56-58 | rounding up to 8 is the masking the code does, for every length |
| RingLayout.PosIsRemainder | rust/src/ring.rs:274 | an offset's position is its remainder by the capacity, and offset = laps * capacity + position |
| RingLayout.HeaderLengthSurvives | rust/src/ring.rs:245-262 | a payload length read back from a header is the one written if and only if it is below 2^32 |
| RingLayout.FreeMissesLive | rust/src/ring.rs:519-532 | offsets less than a lap apart never share a byte of the ring |
| RingLayout.AlignedPos | rust/src/ring.rs:521-527 | a header at any aligned offset lies whole inside the ring, so a pad header always fits before the end |
| RingLayout.PlacedAgrees | rust/src/ring.rs:525-530 | a put that fits writes no byte of a live record |
| RingLayout.PlacedDecodes | rust/src/ring.rs:522-532 | what a put writes (pad and record, wrapped or not) reads back as exactly its record |
| RingLayout.PlaceAppends | rust/src/ring.rs:517-532 | for every mix of sizes and wraps, after a put head..tail decodes to the old queue with the record at its end |
| RingLayout.DecodeFrame | rust/src/ring.rs:264-288 | the queue between two offsets depends on the bytes between them only |
| RingLayout.DecodeAppend | rust/src/ring.rs:264-288 | decoding across any record boundary is decoding both sides |
| RingLayout.PadEndsRing | rust/src/ring.rs:276-280 | a pad reaches exactly to the ring's end and is followed by a record before the tail, never by another pad |
| RingLayout.AtMostOnePad | rust/src/ring.rs:522-529 | at most one pad is live at any time |
| RingLayout.SmallPayloadFits | rust/src/ring.rs:331-332 | a payload of at most a quarter of the ring goes inline while at most cap/2 - 22 bytes are live, so always into an empty ring |
| RingCrash.RoomExactly | rust/src/ring.rs:521-524 | in numbers: a record goes in if and only if fewer than maxsize items are counted, or there is no bound, and the live bytes, its own, rounded up to 8, and the rest of the lap if it does not fit there are no more than the ring's; one that fills the ring to the last byte does |
| RingCrash.TornWrite | rust/src/ring.rs:525-530 | after any number of a put's byte stores the memory differs from before in free cells only, and after all of them it holds the placed record |
| RingCrash.PutDeath | rust/src/ring.rs:524-537 | a producer killed after any of its stores leaves the queue as before the put or as after it, and the count one behind at most |
| RingCrash.PopDeath | rust/src/ring.rs:281-287 | a consumer killed after any of its stores has removed the oldest record or nothing; the count follows only if it got to its last store |
| RingCrash.GetManyDeath | rust/src/ring.rs:609-616 | get_many killed anywhere loses exactly the oldest records it had popped, never more than it asked for, and puts the count off by one more at most; whole pops never widen the lag |
| RingCrash.GetManyTakes | rust/src/ring.rs:609-616 | get_many of n takes the n oldest records, or all |
| RingCrash.ExecStep | rust/src/ring.rs:264-288 | one operation, killed or not, keeps the ring readable and takes effect in full or not at all (a killed get_many up to where it was); only a death puts the count one further off |
| RingCrash.CrashSafety | rust/src/ring.rs:12-16 | over every run of puts, gets and get_manys with deaths anywhere the ring decodes to a queue in which each operation happened whole, or not at all or in part if it was killed, and the count is off by at most the number of deaths |
| RingCrash.CountIsExact | rust/src/ring.rs:533-533 | without deaths the count is the queue's length, so slots run out exactly at maxsize |
| RingCrash.WedgedForGood | rust/src/ring.rs:302-312 | an empty ring whose count reached maxsize stays exactly as it is under all puts, gets and get_manys |
| RingCrash.EmptyRingAccepts | rust/src/ring.rs:523-531 | a put into an empty ring of a record of up to half its bytes succeeds if and only if the count is below maxsize (or there is no bound) |
| RingCrash.ResyncRepairs | rust/src/ring.rs:268-272 | a get_many that runs past the end of a ring with records makes the count exact, whatever the deaths before; one that does not leaves it as far off as it was |
| RingCrash.KilledConsumersWedge | rust/src/ring.rs:284-286 | maxsize consumers killed between their two stores wedge a fresh queue |
| Ring.RingQueue.constructor | rust/src/ring.rs:330-346 | a new ring is empty and readable, with its capacity rounded up and spill_at at most a quarter of it |
| Ring.RingQueue.WriteRecord | rust/src/ring.rs:245-252 | length, kind and payload are written, four bytes of each number with the low byte first, and no other byte changes |
| Ring.RingQueue.ReadHeader | rust/src/ring.rs:254-262 | returns the two little-endian fields at the position |
| Ring.RingQueue.WriteAtTail | rust/src/ring.rs:525-530 | pads and writes so that the bytes are those of the placed record |
| Ring.RingQueue.TryPut | rust/src/ring.rs:517-549 | under the lock: the record is appended to the queue if and only if a slot is free and it fits, by exactly the stores of the crash model, and otherwise nothing changes; in numbers, with the new offsets; says which of slots and bytes ran out and whether to wake a consumer |
| Ring.RingQueue.PopLocked | rust/src/ring.rs:264-288 | returns and removes the oldest record; None if and only if the queue is empty, and then only the count changes, to 0 |
| Ring.RingQueue.Get | rust/src/ring.rs:579-592 | takes the oldest record and wakes one producer if any waits; an empty ring is left exactly as it was, its count included |
| Ring.RingQueue.GetMany | rust/src/ring.rs:597-621 | takes the n oldest records in order, or all, and wakes as many producers if any waits; going past the end makes the count exact; an empty ring is left exactly as it was |
| Ring.RingQueue.UnlinkWalk | rust/src/ring.rs:371-399 | the teardown walk ends, returns exactly the spill names of the live records in order and the number of file spills, and leaves the ring empty |
| WakeProtocol.SleeperIsServed | rust/src/ring.rs:301-320 | the whole story of a taker that finds nothing and sleeps and a poster that wakes it can happen, and ends with the token taken, nobody counted and the lock free |
| WakeProtocol.PostsEnd | rust/src/ring.rs:290-299 | posting n moves the sequence by n and delivers n wakes if and only if anyone is counted as waiting |
| WakeProtocol.WaitsEnd | rust/src/ring.rs:309-319 | a wait that times out or ends with a signal is no longer counted; the one looks again under the lock, the other leaves |
| WakeProtocol.BumpKeepsAwake | rust/src/ring.rs:314-319 | a taker about to sleep sleeps if nothing was posted since it looked, and does not if a post gets in between |
| WakeProtocol.NothingDone | rust/src/ring.rs:301-312 | a take that finds nothing, and a post of nothing, leave everything as it was |
| WakeProtocol.OneHolder | rust/src/ring.rs:141-147 | at most one thread is inside the locked section |
| WakeProtocol.SleepersAreCovered | rust/src/ring.rs:301-320 | in every reachable state with a sleeper, the items there are do not exceed what awake threads will take or wake for, plus what went with killed threads and signal errors |
| WakeProtocol.FaultlessLosesNothing | rust/src/ring.rs:562-573 | without deaths and signal errors nothing is written off |
| WakeProtocol.NoLostWakeup | rust/src/ring.rs:524-541 | without deaths and signals, whenever an item and a sleeper coexist some awake thread is on its way to take it or to wake a sleeper, and the awake threads together cover all items |
| SpaceWaits.RoomIsTheRings | rust/src/ring.rs:519-524 | the room these waits are for is the ring's own, and what a record is said to reach is what its tail moves by |
| SpaceWaits.SliceEnds | rust/src/ring.rs:543-573 | a producer back from a slice puts its record behind the others if and only if there is room; else it sleeps on as if nothing had been, or leaves uncounted |
| SpaceWaits.DiskWaits | rust/src/ring.rs:484-496 | a pop owes a wake if and only if a producer is counted; a disk waiter is not, sleeps only if nothing was popped since it looked, and its wait changes nothing |
| SpaceWaits.WakeNotNeeded | rust/src/ring.rs:290-299 | a producer counted but not yet asleep when something is popped does not go to sleep, so the wake that finds nobody is not missed |
| SpaceWaits.NobodyLeftAsleep | rust/src/ring.rs:543-573 | if producers wait with records of one size and each pop makes room for at most one more, none is ever left asleep with room for its record and nobody on the way |
| SpaceWaits.GentlePops | rust/src/ring.rs:290-299 | a pop makes room for at most one more if it frees no more bytes than a record takes, or if slots were what limited the ring |
| SpaceWaits.PopLeavesOneAsleep | rust/src/ring.rs:290-299 | for records of any sizes: a pop that wakes one of two sleepers leaves the other asleep with room and nobody on the way if and only if it made room for both, or for the other's only |
| SpaceWaits.SmallPopLeavesNone | rust/src/ring.rs:521-524 | if neither had room before and the pop frees no more than the other's record takes, it never makes room for both |
| SpaceWaits.OnePopForTwo | rust/src/ring.rs:290-299 | a run from an empty ring in which two producers sleep on bytes, one pop wakes one, and the other sleeps on beside its room |
| SpaceWaits.DiskWaiterTakesTheWake | rust/src/ring.rs:484-496 | a run in which a producer waiting for disk space, uncounted on the same word, takes the wake of the producer the slot was for |
| PidMutex.MutualExclusion | rust/src/sys.rs:92-131 | whoever is killed where, at most one live thread is in the critical section, and the word holds its pid |
| PidMutex.LockIsHandedOn | rust/src/sys.rs:92-157 | the whole story of a lock taken, slept on, unlocked, woken for and taken by the sleeper can happen, and ends with it free |
| PidMutex.Uncontended | rust/src/sys.rs:92-137 | a lock taken and released with nobody about leaves everything as it was |
| PidMutex.FreeLockIsTaken | rust/src/sys.rs:92-131 | whatever a waiter was doing, once the word is free it gets in by its own steps alone |
| PidMutex.NoResurrection | rust/src/sys.rs:71-75 | a pid found dead stays dead, which takeover relies on |
| PidMutex.StepKeepsWatch | rust/src/sys.rs:106-137 | the watch over sleepers survives a step if and only if it is not a kill that takes the last thread about to see to them while the word is unmarked and leaves one asleep |
| PidMutex.SleepersAreWatched | rust/src/sys.rs:106-137 | in every run without such a kill: while a thread sleeps the word carries WAITERS, or a wake is on its way, or an awake waiter will set WAITERS again |
| PidMutex.DeadHolderIsReplaced | rust/src/sys.rs:119-128 | a waiter back from a slice takes a dead holder's lock by itself, in three steps |
| Spill.HexRoundTrip | rust/src/ring.rs:79-90 | hexadecimal numbers in names determine their values |
| Spill.ObjectNamesUnique | rust/src/ring.rs:79-90 | spill names of any rings and processes are equal only for the same ring, process and counter |
| Spill.SweepIsExact | rust/src/ring.rs:404-420 | a spill's name has the prefix the teardown sweeps for if and only if it is that ring's |
| Spill.Le64RoundTrip | rust/src/ring.rs:64-73 | the length in a spill record is the one written, for every 64-bit length |
| Spill.SpillLoads | rust/src/ring.rs:64-102 | reading a spill's record finds its object and returns its data, for every length including 0 |
| Spill.SpillOwned | rust/src/ring.rs:473-541 | publishing a spill's record makes the record the owner of a new object, one each, leaves every other message readable and appends this one |
| Spill.Abandoned | rust/src/ring.rs:617-619 | a record that goes without its object leaves every other message readable and its object to nobody |
| Spill.GetOwned | rust/src/ring.rs:237-243 | taking the oldest record and its object leaves exactly the other records' objects and messages |
| Spill.LeftoverOwned | rust/src/ring.rs:213-222 | a file left half-written by a failed write belongs to no record and changes no message |
| Spill.DiscardUndoes | rust/src/ring.rs:465-471 | discarding a spill that was not queued restores what existed before |
| Spill.SpillQueue.WriteSpill | rust/src/ring.rs:64-73 | adds one object under a name nothing had, at least a byte long in shared memory, and returns the record that reads its data back |
| Spill.SpillQueue.LeavePart | rust/src/ring.rs:213-222 | a failed file write adds one ownerless file if it had created it, and nothing otherwise; the messages stay as they were |
| Spill.SpillQueue.Put | rust/src/ring.rs:460-575 | not blocking: a queued message is appended whole, however it travels; inline if it is small and has a slot and room, False if it is small and has no slot; else by way of shared memory, a file, False or an error, each by the system's answers, with the record and the object that are there then; False or an error leaves queue and shared memory as they were, and the files too if and only if no file write failed after creating its file |
| Spill.SpillQueue.SpillAndPut | rust/src/ring.rs:474-555 | by cases on the system's answers: shared memory when it is given, a file when that is full or not wanted, an error on any other failure, False when the disk is full too; queued exactly with a slot and room for the spill record, and then which record and object; a leftover file exactly when a write failed half-way |
| Spill.SpillQueue.WriteAndPut | rust/src/ring.rs:513-555 | once the object is made, its record is queued if and only if it has a slot and room, or the object is gone again |
| Spill.SpillQueue.Materialize | rust/src/ring.rs:237-243 | a popped spill is read and its object removed, or there is an error, exactly when the system refuses; then an object in shared memory stays, owned by nobody, and a file goes |
| Spill.SpillQueue.MaterializeAll | rust/src/ring.rs:617-619 | reads popped records in order; the first that cannot be read ends it and leaves over that object, if it is in shared memory, and those of all records behind it |
| Spill.SpillQueue.Get | rust/src/ring.rs:579-592 | returns the oldest message, whatever carried it, and removes exactly its object; if that cannot be read, an error, the record gone and an object in shared memory left |
| Spill.SpillQueue.GetMany | rust/src/ring.rs:597-621 | takes the n oldest records, or all, and returns their messages in order if and only if each can be read; otherwise they are gone all the same, and what is left over is exact |
| SpillOwners.WaitingPut | rust/src/ring.rs:534-571 | a put that waits notes its object; queued, its record owns the object and the entry is gone; given up, nothing is left of it |
| SpillOwners.PutAndTaken | rust/src/ring.rs:460-621 | what one process puts into an empty queue and another takes out leaves nothing behind: inline, by shared memory or by file |
| SpillOwners.ReadsAll | rust/src/ring.rs:616-621 | a get that can read all it has taken removes exactly those objects |
| SpillOwners.StepKeepsInv | rust/src/ring.rs:166-203 | every step of any process keeps one owner per object and one live owner per table entry |
| SpillOwners.SpillsHaveOneOwner | rust/src/ring.rs:460-621 | in every reachable state an object exists if and only if it is owned, and then by exactly one of: a record, a put, get or get_many under way, a failed write or read, a killed process |
| SpillOwners.QuietObjects | rust/src/ring.rs:460-621 | with nobody at work the objects are those of the queued records, one record each, and the ownerless ones of failures and deaths |
| SpillOwners.LeftoversExactly | rust/src/ring.rs:96-102 | over every run: with nobody at work nothing but the records' objects is there if and only if no write failed after creating its file, no read failed on an object in shared memory or before more spills, and no process with an object was killed |
| SpillOwners.FailedReadLeavesAll | rust/src/ring.rs:609-620 | for every k a run without deaths or failed writes in which one failed mapping loses k messages and leaves their k objects |
| SpillOwners.EveryRetryLeavesAFile | rust/src/ring.rs:489-496 | k tries of a put on a full disk can leave k files that no record names |
| SpillOwners.SweepSparesOthers | rust/src/ring.rs:404-420 | the teardown sweep takes no other ring's spill and no ring |
| SpillOwners.TeardownLeavesOnlyLeaks | rust/src/ring.rs:371-422 | teardown leaves at most the shared-memory objects of failed gets and of processes killed elsewhere than in a noted wait; nothing on Linux, whose sweep finds every name of the ring, and nothing if no step left an object ownerless |
| SizeClass.ClassIsSmallest | rust/src/store.rs:71-79 | class_of picks the smallest class whose blocks hold the request, and returns that class's block size |
| SizeClass.SizesIncrease | rust/src/store.rs:71-79 | block sizes strictly increase with the class |
| SizeClass.WasteIsSmall | rust/src/store.rs:69-70 | above 4 KiB less than a quarter of the request is wasted |
| SizeClass.ClassesSuffice | rust/src/store.rs:106-108 | every request the classes serve has one of the 64 lists and fits a fresh segment |
| SizeClass.MonotoneInTotal | rust/src/store.rs:71-79 | a larger request never gets a smaller class |
| SizeClass.PackRoundTrip | rust/src/store.rs:61-67 | a reference survives packing into 64 bits if and only if its segment has 24 bits and its offset 40; a list word is then never the empty mark |
| PayloadStore.StepKeepsInv | rust/src/store.rs:306-358 | every store of every thread, every failure and every death keeps lists, blocks, counts and ownership consistent: what a thread works on is marked as its own, and what is marked so is in its hands |
| PayloadRuns.MarksArePlaces | rust/src/store.rs:154-177 | every block ever carved is in exactly one place: referenced, in a thread's hands, on the free list of its class, removed, or out of reach |
| PayloadRuns.NeverHandedOutInUse | rust/src/store.rs:306-358 | whatever is handed out has no reference, is in nobody's hands and is on no list afterwards |
| PayloadRuns.BlocksNeverOverlap | rust/src/store.rs:324-348 | two blocks in use, listed, referenced or in transit share no byte and lie inside their segments, also after a death between `cur` and `bump` |
| PayloadRuns.CountsAreExact | rust/src/store.rs:155-185 | a referenced block's count is the number of Block objects, un-adopted handles and references that went with killed threads and lost messages |
| PayloadRuns.FreeListsAreSound | rust/src/store.rs:169-176 | free lists are acyclic chains; a listed block is listed once, under the class it was carved for, and has no reference |
| PayloadRuns.StepsAreAlwaysPossible | rust/src/store.rs:155-176 | what a thread relies on is there: no drop goes below zero, a list head has a next word, a freed block has a list |
| PayloadRuns.LostExactly | rust/src/store.rs:306-367 | over every run: some block is lost if and only if a thread with a block or a reference was killed, an attach to the segment of a block just carved failed, or a handle was lost |
| PayloadRuns.LostForGood | rust/src/store.rs:306-358 | a lost block stays lost and is never handed out again, whatever happens |
| PayloadRuns.AttachFailureLeaks | rust/src/store.rs:352-352 | a run without deaths in which a thread that cannot map a segment loses the block it carved there |
| PayloadRuns.UnreferencedIsRecycled | rust/src/store.rs:154-177 | in every run without such a step, a block nobody refers to is on the free list of its class, in the hands of some thread, or a dedicated segment that has been removed |
| PayloadCalls.NewBlockIsPublished | rust/src/store.rs:352-357 | a new block gets one reference, its class and its payload, and is its thread's |
| PayloadCalls.SharedAndBack | rust/src/store.rs:179-185 | a block shared, adopted elsewhere and dropped there leaves everything as it was; a handle lost leaves a reference nobody can drop |
| PayloadCalls.PassedAndDropped | rust/src/store.rs:155-159 | a block passed on within a process and dropped there is a block dropped |
| PayloadCalls.FreedGoesOnTop | rust/src/store.rs:155-176 | a block whose last reference is dropped goes on top of the list of its class, its next word leading to the old top, and nothing else changes |
| PayloadCalls.TopIsTaken | rust/src/store.rs:316-322 | a request is served from the top of its class's list: what was freed last is handed out first |
| PayloadCalls.FailedRequestLeavesNothing | rust/src/store.rs:316-350 | a request that fails at whatever point under the lock leaves the store as it was, a claimed id given back |
| PayloadCalls.DedicatedComesAndGoes | rust/src/store.rs:226-250 | a dedicated segment is there once allocated and gone once its last reference is |
| PayloadRuns.ReferencedPayloadIsStable | src/pipe/shmstore.py:254-257 | no step changes the payload of a referenced block |
| PayloadRuns.ReadersSeeSentBytes | src/pipe/shmstore.py:233-257 | in every reachable state, whoever holds a block or a handle on one finds in it what was sent in it, whatever has been allocated, freed or killed |
| PayloadRuns.HolderIsReference | rust/src/store.rs:179-185 | a Block object or an un-adopted handle is such a reference |
| StoreCap.CapUnderRaces | rust/src/store.rs:226-248 | under any interleaving the segments that exist exceed the cap by at most one regular segment, plus one per thread killed before paying |
| StoreCap.RegularAlone | rust/src/store.rs:329-346 | undisturbed, a regular segment is created and paid for if and only if it fits under the cap, and otherwise, or if it cannot be created, nothing is left of it |
| StoreCap.OwnAlone | rust/src/store.rs:226-248 | undisturbed, a dedicated segment is there and paid for if it fits, leaves nothing if it does not or cannot be created, and is given back when it is freed |
| StoreCap.StepKeepsCapped | rust/src/store.rs:329-346 | what keeps the cap is broken by a step if and only if it is a dedicated allocation that passes its own check, between a regular one's check and payment, without fitting beside it |
| StoreCap.CapWithoutRaces | rust/src/store.rs:329-346 | in every run without such an allocation the cap holds exactly (up to killed threads) |
| StoreCap.CapCanBeExceeded | rust/src/store.rs:229-232 | a run of two threads in which the committed bytes exceed the cap |
| StoreCap.IdsAreRegistered | src/pipe/shmstore.py:167-176 | every regular segment's id is below limit / seg_bytes, so among the names registered up front, up to threads killed on the way |
| StoreCap.UsedCoversEverything | rust/src/store.rs:161-167 | `used` covers every dedicated segment and everything to be taken back, so subtracting never wraps |
| Views.MapsBackExactly | src/pipe/shmstore.py:238-245 | the rebuilding check before forwarding passes if and only if every element of the view lies inside the block |
| Views.PackedReads | src/pipe/shmstore.py:246-251 | a copied array holds every element of a view with any strides, at its C-order place inside the new block |
| Views.HopReads | src/pipe/shmstore.py:233-257 | by handle or by copy, and wherever the receiver maps the block, every element arrives |
| Views.CutReads | src/pipe/shmstore.py:226-230 | a slice with any start and step, a pick or an axis swap of an array shows the elements it should |
| Views.ChainReads | src/pipe/shmstore.py:233-257 | along any chain of hops and sub-views every receiver reads the first sender's elements |
| Views.HandlesRefineCopies | src/pipe/shmstore.py:233-257 | no receiver can tell a chain with handles from one where every hop copies |
| SharedArrays.WorldStepKeepsInv | src/pipe/shmstore.py:233-257 | every step of senders, receivers and the store under them keeps each held or sent array the value its chain of hops and sub-views makes of the first sender's |
| SharedArrays.ArraysShowWhatWasSent | src/pipe/shmstore.py:226-257 | in every reachable state, with blocks allocated, freed and recycled and threads killed meanwhile, an array read from the store's memory shows the first sender's elements |
| SharedArrays.HandlesAreLikeCopies | src/pipe/shmstore.py:226-257 | and those are the elements it would show had every hop copied |
| Channels.PutRetry | src/pipe/queues.py:75-110 | for every pattern of Full the message is put once, behind what was queued, with the store references of one encoding |
| Channels.OutputChannel.Send | src/pipe/queues.py:147-160 | the stream of items sent grows by the item, in order, whatever is flushed; an item that neither fills the chunk nor is late only joins the pending ones, else one chunk of them all is put; without chunks a bare item |
| Channels.SendIsChunked | src/pipe/queues.py:147-160 | the same of the edge machine: an item joins the pending ones, or they go as one chunk when full or late |
| Channels.OutputChannel.MaybeFlush | src/pipe/queues.py:162-166 | flushes exactly when the oldest item is due and changes no stream |
| Channels.OutputChannel.Flush | src/pipe/queues.py:168-175 | nothing is left pending, the stream is unchanged; one message is put, the chunk of what was pending, or none if nothing was |
| Channels.InputChannel.Get | src/pipe/queues.py:193-211 | returns the first item still to come, from the buffer or the queue, chunked or bare; nothing if and only if none is |
| Channels.InputChannel.RequeueBuffered | src/pipe/queues.py:217-228 | the buffered items go back behind the queued ones, none lost or doubled |
| Channels.StreamSurvivesChunking | src/pipe/queues.py:118-211 | on one writer's and reader's edge, in any interleaving: sent = received ++ buffered ++ queued ++ being put ++ pending |
| Channels.LoadsWhatWasEncoded | src/pipe/shmqueue.py:135-145 | inline, parked in a store block or spilled to disk, the receiver loads what was put; a block is taken exactly for an oversized message when there is room, and is gone again once it is loaded |
| Flow.ComposedConcat | src/pipe/workers.py:970-985 | what a pipeline makes of two streams in a row is what it makes of each |
| Pipeline.StepConserves | src/pipe/workers.py:750-985 | every step of every worker and reader keeps, for each output item, the number of its copies held anywhere |
| Pipeline.StepKeepsInv | src/pipe/workers.py:253-278 | exactly one worker of a stage passes the counter test, only when all are counted, and nobody leaves before the stage upstream is done |
| Pipeline.DoneMeansFlushed | src/pipe/workers.py:1007-1015 | once a stage is done, all its workers have parked with nothing unread, unsent or pending |
| Pipeline.LastOneOut | src/pipe/workers.py:253-278 | a worker whose count does not complete its stage just parks; the one whose count does can put its Ends, one for each reader behind the last stage and one behind any other, and set done, and that is all that changes |
| Pipeline.DoneIsFinal | src/pipe/workers.py:265-278 | a done stage stays done and its output queue only shrinks from then on |
| Pipeline.UpstreamDone | src/pipe/workers.py:869-877 | when a stage has counted out its workers every stage upstream is done |
| Pipeline.StepKeepsEnds | src/pipe/workers.py:265-275 | the final queue's Ends follow all its items; each is owed, queued or has stopped one reader; there is one for each reader unless a put of one timed out |
| Pipeline.StepKeepsSendable | src/pipe/queues.py:168-175 | no empty chunk is ever on a queue |
| Pipeline.ReadersFinish | src/pipe/queues.py:280-297 | when the final stage is done and no put of an End timed out, a reader that has not stopped can always move |
| Pipeline.ReadersStop | src/pipe/queues.py:280-297 | from then on, whatever else happens, there are no more reads than messages, items and buffered items left, and no reader can move if and only if all have stopped: every maximal sequence of reads stops them all |
| Pipeline.NobodyIsStuck | src/pipe/workers.py:868-903 | in every reachable state a worker that has not parked can move, whatever the others do; with all parked every reader that has not stopped can, unless a put of an End timed out |
| Pipeline.SizesHold | src/pipe/queues.py:147-160 | in every reachable state no batch exceeds its size, no chunk, pending or queued, the chunk size, and items travel bare exactly where there are no chunks |
| Pipeline.StoppedMeansFinished | src/pipe/queues.py:280-297 | when every reader has stopped no worker holds an item, the final queue has none and all inner stages are done |
| Pipeline.RunAccounts | src/pipe/workers.py:868-903 | for any stages, workers, chunk and batch sizes: once every reader has stopped, what they returned and what was stranded between stages are the composed flat-map of the root's items, copy for copy |
| Pipeline.StrandedStages | src/pipe/workers.py:869-877 | once every reader has stopped, the queue into a stage holds no item if and only if some worker of the stage left while it held none |
| Pipeline.DeliveredExactly | src/pipe/workers.py:868-903 | so, by those accounts, the readers returned exactly the composed flat-map if and only if no stranded item leads to an output; when items are stranded is StrandedStages |
| Pipeline.CleanRunsLoseNothing | src/pipe/workers.py:868-903 | every stage having a worker that left so is the same as nothing being stranded, and then nothing is lost |
| Pipeline.AtomicPollsLoseNothing | src/pipe/workers.py:869-877 | if every empty poll and its look at upstream_done are one step, the readers returned exactly the composed flat-map |
| Pipeline.LateItemIsStranded | src/pipe/workers.py:869-877 | for every number of empty polls waited for there is a run in which the readers stop without an item |
| PipelineOrder.StepKeepsStream | src/pipe/queues.py:147-211 | with one worker at each stage and one reader, no step of anyone changes what all there is comes to, in order, and nothing returned is taken back |
| PipelineOrder.ReaderIsInOrder | src/pipe/queues.py:147-211 | so in every reachable state, for any chunk and batch sizes, what the reader has returned is the beginning of the composed flat-map of the root's items, as a sequence |
| PipelineOrder.StoppedInOrder | src/pipe/workers.py:868-903 | and once it has stopped it is all of it if and only if no stranded item leads to an output |
| PipelineOrder.AtomicPollsKeepOrder | src/pipe/workers.py:869-877 | with poll and look in one step it is all of it, in order |
| Sequential.TraceAllIsTraces | src/pipe/sequential.py:61-89 | the recursive reference: what an item leads to is what each entry it appends leads to |
| Sequential.BagCall | src/pipe/sequential.py:77-89 | a call on a batch leads to what calls on its items one by one lead to |
| Sequential.BagPulled | src/pipe/sequential.py:123-152 | so does a run() stage that pulls in batches of any size |
| Sequential.LaterAdvanced | src/pipe/sequential.py:114-160 | without pushes, processing the front of a stage's items does not change what the list will yield, in order |
| Sequential.Runner.AddResult | src/pipe/sequential.py:61-75 | None, End, an item, a list or a generator: exactly its items are appended for the next stage, in order |
| Sequential.Runner.ProcessCallable | src/pipe/sequential.py:77-89 | the batch is the longest run of the stage's items at the front, up to the batch size; the rest keeps its order |
| Sequential.Runner.RunStage | src/pipe/sequential.py:123-157 | all pending items of the stage are taken, in order, the others keep theirs, and what the pulls lead to is appended |
| Sequential.Runner.CallRoot | src/pipe/sequential.py:92-112 | exactly the items the root's result stands for are appended, and the source ends when it should: each kind of result by itself, of a list what comes before its first End |
| Sequential.Runner.PopOne | src/pipe/sequential.py:114-160 | one turn keeps the books and strictly decreases the pops still to come |
| Sequential.Runner.Run | src/pipe/sequential.py:91-160 | the run ends, also with pushes back within retry budgets; its pops are those of its turns, one root call and one pop each while the source lasts, in that order, and as a bag those of the recursion on the root's items; without pushes it yields the composed flat-map of the root's items in order |
| SequentialOrder.TurnsAreLawful | src/pipe/sequential.py:91-160 | event by event of a run, pushes back and all: the root's calls go on to its end, one following another only if nothing waits; a pop takes what has waited longest (with its batch, or all of a run() stage) and follows another only after the source's end |
| SequentialOrder.RunsAreLawful | src/pipe/sequential.py:91-160 | so in every run, at whose end nothing waits and the source has ended |
| SequentialOrder.StagesAreFifo | src/pipe/sequential.py:91-160 | every stage gets its items in the order in which they were appended for it, pushes included |
| Sequential.RetriesExact | tests/test_push_stress.py:3-9 | with one-output stages and a retry loop an item is yielded exactly once, after 1 + retries passes through each stage of the loop |
| Sequential.RetryRun | tests/test_push_stress.py:3-9 | so a finished run yields one output for each root item and makes 1 + retries passes for each |
| Sequential.RootsAgree | src/pipe/workers.py:786-806 | the sequential and the parallel runner send the same of a root's result if and only if it is not a list with an item behind an End |
| Scavenger.StepKeepsInv | src/pipe/scavenge.py:253-295 | every access to the shared words by either party keeps the handshake consistent, as long as no answer comes late |
| Scavenger.NeverStranded | src/pipe/scavenge.py:403-476 | between polls park is 0 or 2, and 2 only of a worker that waits and is tracked as parked or frozen |
| Scavenger.FreePollsRelease | src/pipe/scavenge.py:477-505 | enough foreign-free polls, with restores that succeed, leave park = 0 and hold = 0, neither parked nor frozen, whatever the worker does in between |
| Scavenger.ReleasesOnlyAfter | src/pipe/scavenge.py:400-401 | in every run nothing that holds a worker is cleared but by a foreign-free poll, with at least need_free_polls of them in the run since a foreign process was last seen |
| Scavenger.FewPollsReleaseNobody | src/pipe/scavenge.py:477-505 | so while there are never so many, what is parked, frozen or held stays so |
| Scavenger.FewPollsKeepWaiting | src/pipe/workers.py:474-478 | and a worker held at its start, or parked, goes on waiting |
| Scavenger.UnaskedNeverParks | src/pipe/workers.py:454-455 | a worker that is never asked never parks |
| Scavenger.ReleasedRuns | src/pipe/workers.py:281-310 | a released worker, held or parked, goes on by itself |
| Scavenger.RefusalIsTaken | src/pipe/scavenge.py:264-272 | a worker that refuses to park runs on, its request is cleared and the poller turns to the checkpoint |
| Scavenger.ForeignPollEnds | src/pipe/scavenge.py:403-476 | however the two take turns, a poll that sees a foreign process ends with the worker parked without residue, or frozen if it uses memory, there is no hazard and the checkpoint works, and held unless there is a hazard |
| Scavenger.LateAckStrands | src/pipe/scavenge.py:271-277 | a run in which an ack after its request timed out strands the worker |
| Scavenger.StrandedStays | src/pipe/scavenge.py:477-505 | no number of foreign-free polls releases it |
| Scavenger.StrandsExactly | src/pipe/scavenge.py:434-476 | a step strands a worker if and only if it is an ack between two polls, never an asked-for one, of a worker that is not frozen, or the end of a poll that did not ask, finds no GPU use and does not look at park |
| Scavenger.StrandedExactly | src/pipe/scavenge.py:403-505 | over every run a worker is stranded at some point if and only if such a step was taken |

## Left out

- Memory orderings: the shared atomics are taken to be sequentially consistent.
- The system's calls (shm_open, mmap, fallocate, futex, signals, /dev/shm listing): only their contracts, as guards and inputs of the actions.
- Offsets are unbounded and the sequence words of `WakeProtocol` do not wrap within one sleep; the ring class counts its sequence words modulo 2^32.
- Pids are not reused (`PidMutex`).
- SpaceWaits.NobodyLeftAsleep: nobody is killed, and what runs under the lock is one step; a sleeper's slice may end at any time.
- Ring.RingQueue.TryPut and Spill.SpillQueue.Put: not for an inline payload of 4 GiB or more, which only a ring of 16 GiB or more would take and whose length its header cuts (RingLayout.HeaderLengthSurvives).
- Ring.RingQueue.Get and Ring.RingQueue.GetMany do not block; waiting is in `WakeProtocol`.
- Spill.SpillQueue.Get, Spill.SpillQueue.GetMany and the put do not block; waits, the pending table and deaths are in `SpaceWaits` and `SpillOwners`.
- Removing a name (shm_unlink, remove_file) is taken to succeed.
- SpillOwners.SpillsHaveOneOwner: a table entry is written in one step, while the code copies a name byte by byte; a death inside the copy can lose the entry.
- PayloadRuns.CountsAreExact: a dedicated segment's allocation is one step, since nobody else can know its name yet.
- Pipeline.RunAccounts: stages are stateless and total, and nobody pushes back, drains early or is stopped by force; flush() hooks, WorkerStop and the held start of a scavenge worker are not in it.
- Pipeline.ReadersFinish: that a reader which can move is scheduled is assumed.
- Sequential.Runner.Run: no stage raises, no stage flushes items at the end, and a call's pushes come before its results (a generator may push between them).
- Scavenger.NeverStranded: one slot, whose worker stays alive; several slots on a GPU share only the streak of free polls.
- Channels: the on_stall hook, End and WorkerStop on an edge (Ends are in `Pipeline`).
- Threaded workers, restart, the health monitor and its forced stops.
- CPU tensors through the store, which stay writable and shared by design; pickling beyond its being inverted by loading; CUDA.
- Ring sizing, statistics, the web server, printing and argument checks, which would only add easy members.
