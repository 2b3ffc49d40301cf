# Verification of the concurrency kernel

This project models the concurrent core of the repository and proves what it promises: the
lock-free containers and allocators of `misc`, the asynchronous logger and number printing of
`slog`, the buffered log worker of `sys`, and the dispatcher and worker mailboxes of `thread`.
`dafny verify dfyconfig.toml` checks all of it.

## How the models are built

Each component is modelled twice.

* A *machine* on values: a `State`, a program counter `Pc` for every thread that names its next
  atomic action and carries its live locals, a total function `Step`, and `Run`, which executes an
  arbitrary schedule. One step is one atomic read, compare-and-swap, fetch-and-add, plain slot
  access or critical section. Memory is sequentially consistent, as misc/LockFreeContainer.h:22-27
  states for the code. Some fields are history: they never influence a step and only serve to say
  what happened (what was pushed, who was given which node). The theorems quantify over every
  schedule of every number of threads.
* A *class* in the form of the source, whose methods update its fields in place. Each method
  performs the next step of the source's function and is proved equal to `Step`; `RunSchedule`
  executes a whole interleaving and is proved equal to `Run`, so the theorems hold of the objects.
  `AsynLogAppender.Appender` carries its pool and its file as sequences; the classes
  `FixedBuffer.Pool`, with buffers as objects, and `LogFile.LogFile`, with its array, are proved
  on their own.

What a call answers is stated apart from the steps, over whole runs: between its call and its
return the thread has made exactly the change to the shared history that the answer says, once, and
different calls have made different changes (`CallTrace` and the `Calls` modules).

| component | machine and proofs | class |
|---|---|---|
| linked queue with recycled nodes | ListQueue, ListQueueInv, ListQueueSound, ListQueueOnePusher, ListQueueFresh, ListQueueTail, ListQueueTheorems, ListQueueAlone, ListQueueReach, ListQueueCounter, ListQueueSmall, ListQueueUnpopped, ListQueueExact, ListQueueAnswers, ListQueueCalls | LockFreeListQueue |
| bounded stack behind a group lock | ArrayStack, ArrayStackProofs, ArrayStackLinear, ArrayStackAlone | LockFreeStack |
| ring with three cursors | RingQueue, RingQueueSound, RingQueueTheorems, RingQueueCounter, RingQueueExact, RingQueueAnswers, RingQueueCalls, RingQueueAlone | LockFreeQueue |
| tagged pool of buffers | BufferPool, BufferPoolSound, BufferPoolSeed, BufferPoolAlone, BufferPoolCalls | LockFreeBuffer |
| untagged per-thread list | ThreadList, ThreadListProofs, ThreadListAlone, ThreadListCalls | PerThreadMemory |
| pool and queue of the log worker | LogWorker, LogPrints | Logger |
| asynchronous logger | AsyncLog, AsyncLogInv, AsyncLogWriters, AsyncLogLogger, AsyncLogTheorems, AsyncLogStop, AsyncLogCalls | AsynLogAppender, FixedBuffer, LogFile |
| worker mailbox | Mailbox, MailboxCalls | WorkerBody |
| dispatcher and workers | PoolDispatch, PoolLiveness, PoolTasks, PoolAffinity, PoolOrder | ThreadPool, WorkerMask |
| number printing | Numerals | LogStream |

`NodeList` and `Modulus` hold what several of them need.

## What the code does not promise

Several results say exactly when the code works, because it does not always.

* **Release tags.** `LockFreeBuffer` and `LockFreeListQueue` tag pointers against reuse and start
  the tags of released nodes at `size_ - 1` (`max_ - 1`), which is the tag of the last node of the
  initial list (misc/src/LockFreeBuffer.cc:61, misc/src/LockFreeList.cc:73). The first tag is a
  parameter `seed` here. The buffer pool is safe on all runs exactly when `size_ <= seed` or there
  is one buffer, so with the code's own seed exactly when there is one
  (`SafeSeedIff`, `CodeSeedSafeIff`); `CodeSeedLosesNode` is a run of the queue as built that loses
  a node.
* **Stale tails.** `Push` links with a compare-and-swap against an untagged 0
  (misc/src/LockFreeList.cc:151), so a pusher may link behind a node that has left the queue.
  `SafeSidesIff` says whom the queue serves: for every capacity, every first release tag and every
  choice of pushing and popping threads, all runs are sound if and only if at most one thread
  pushes, or nobody pops, or there is one node, or there are two nodes and the releases do not
  start from tag 0. In the other cases `StaleLinkLosesValue`, for every size from three on, loses
  a value. What several pushers may rely on all the same: a single run is sound exactly when it
  has no stale allocation and no stale link, and with fresh tags it suffices that no node is
  released while a pusher has it as its observed tail.
* **Empty answers.** `Pop` of the linked queue takes a null `next` of the node it has read for an
  empty queue (misc/src/LockFreeList.cc:174-176), but another popper may have released that node
  and the pusher may have taken it again. `NeverMissesIff`: with one pusher, no `Pop` answers false
  over a value that was in the queue during all of the call, if and only if one thread pops or
  there are at most two nodes. With one popper the answer is right at its read of `next`.
* **Laps of the ring.** The cursors of `LockFreeQueue` are wrapped and untagged. `SafeSidesIff`:
  for every size and every choice of pushing and popping threads, all runs are sound if and only if
  the size is one, or nobody pushes, or nobody pops, or one thread pushes and one pops.
  `LappedPopRepeatsValue` and `LappedPushHidesValues` are, for every size from two on, runs on which
  the ring goes round between the read of a cursor and its compare-and-swap; without such a lap
  any number of threads is safe.
* **Full and empty of the ring.** `Push` and `Pop` compare a cursor that they have read with the
  other one as it is now, so with several threads on a side the answer can be false although nothing
  overruns: `FullToldIff` and `EmptyToldIff` give the exact condition for one answer, `TrueFullIff`
  and `TrueEmptyIff` the sizes and threads for which every answer is true. Two pushers and a popper
  are enough for a "full" from an empty ring.
* **Cleaner.** The trigger for freeing a thread's list compares the counter's old value
  (misc/src/PerThreadMemory.cc:211, :230), which never reaches population_ + 1: `Cleaner` is never
  called, not even by the release of the last node.
* **int shifts.** `1 << id` is an `int` (thread/src/ThreadPool.cc:248, :277). For id 31 it sets bits
  31 to 63. Up to 32 workers the mask still selects the right worker.

## Model

| member | source | states |
|---|---|---|
| ListQueueSound.SoundIffClean | misc/src/LockFreeList.cc:76-195 | from any state that satisfies the invariant, all states of a run are sound (queue, free list and nodes in flight partition the nodes; pushed values are popped values plus queued values; `out_` reaches `in_`) if and only if no allocation installs a stale successor and no link succeeds on a node outside the queue |
| ListQueueSound.StepInv | misc/src/LockFreeList.cc:76-195 | every step of every thread keeps the invariant unless it is one of those two |
| ListQueueCalls.AnswersAreTrue | misc/src/LockFreeList.cc:76-195 | every run of any threads, from any state and without a premise: between its call and its return a Push that answers true links one value, its argument, and a Pop that answers true pops one value, its answer; a call that answers false changes nothing, and Push does so only with an empty free list; different calls make different changes |
| ListQueueTheorems.OnePusherIsSound | misc/src/LockFreeList.cc:76-195 | one pusher, any poppers, any schedule and any first release tag: nothing is lost, duplicated or reordered, pops in `out_` order are a prefix of pushes in link order, no node leaks, and `in_` is at the last node or the one before it |
| ListQueueExact.SafeSidesIff | misc/src/LockFreeList.cc:64-195 | every capacity, every first release tag, every set of pushers and every set of poppers: all runs of all numbers of threads are sound if and only if at most one thread pushes, or nobody pops, or the capacity is 1, or it is 2 and the first release tag is not 0 |
| ListQueueExact.CodeSidesIff | misc/src/LockFreeList.cc:64-195 | with the code's own first tag, `max_ - 1`: if and only if at most one thread pushes, or nobody pops, or there are at most two nodes |
| ListQueueSmall.SmallIsSound | misc/src/LockFreeList.cc:64-195 | any pushers and poppers on one node, or on two nodes with release tags from 1 on: every state of every run is sound |
| ListQueueUnpopped.UnpoppedIsSound | misc/src/LockFreeList.cc:76-158 | any pushers and no popper: every state of every run is sound |
| ListQueueAnswers.EmptyAnswerIsRight | misc/src/LockFreeList.cc:160-189 | with a single popper, on every run without a bad step, Pop answers false, at whatever step, only when the queue holds nothing but its dummy, and then does at the read of `next` |
| ListQueueAnswers.NeverMissesIff | misc/src/LockFreeList.cc:160-195 | with one pusher, for every capacity and first tag: no Pop of any run answers false, at whatever step, although a value was in the queue from its call to its answer, if and only if at most one thread pops or there are at most two nodes |
| ListQueueTheorems.FreshSoundIff | misc/src/LockFreeList.cc:100-158 | with release tags above the initial tags, a run is sound if and only if no link succeeds on a node that has left the queue |
| ListQueueTheorems.ManyPushersAreSound | misc/src/LockFreeList.cc:100-192 | any pushers and poppers, fresh release tags, no release of an observed tail: every state is sound, pops are a prefix of pushes, and `in_` is at the last node or exactly one before it, so `out_` has not passed it |
| ListQueueAlone.FinishesAlone | misc/src/LockFreeList.cc:76-195 | one pusher, any poppers: in every state of every run, whatever helping is due or stale, at most 19 steps alone finish any thread's operation |
| ListQueueFresh.FreshStep | misc/src/LockFreeList.cc:76-118 | with fresh release tags no (tag, node) pair that has left the free list comes back, on any step that is not a stale link |
| ListQueueTail.NearEndStep | misc/src/LockFreeList.cc:141-155 | a step that does not release an observed tail keeps every observed tail in the queue, or with a non-null `next` in its popper's hands |
| ListQueueCounter.StaleLinkLosesValue | misc/src/LockFreeList.cc:141-151 | for every capacity from 3 on, every first tag, any two pushers and any popper: a run on which a push links to a recycled node and its value is neither in the queue nor popped |
| ListQueueCounter.CodeSeedLosesNode | misc/src/LockFreeList.cc:64-73 | a run of the queue as built on which a release brings back an initial tag and a node is lost |
| LockFreeListQueue.Queue.constructor | misc/src/LockFreeList.cc:38-74 | the linked node list, the dummy and the counters of the initial state |
| LockFreeListQueue.Queue.AllocNode | misc/src/LockFreeList.cc:76-98 | each step of AllocNode is the machine's |
| LockFreeListQueue.Queue.LinkNode | misc/src/LockFreeList.cc:135-155 | each step of Push from reading `in_` to swinging it is the machine's |
| LockFreeListQueue.Queue.Pop | misc/src/LockFreeList.cc:160-189 | each step of Pop up to its compare-and-swap on `out_` is the machine's |
| LockFreeListQueue.Queue.ReleaseNode | misc/src/LockFreeList.cc:100-118 | each step of ReleaseNode is the machine's |
| LockFreeListQueue.Queue.RunSchedule | misc/src/LockFreeList.cc:76-195 | any interleaving on the object is the machine's run |
| LockFreeListQueue.OnePusherSession | misc/src/LockFreeList.cc:38-195 | an object driven by one pusher and any poppers ends sound and first-in first-out |
| LogWorker.DoLogNeverWaits | sys/src/Logger.cc:67-176 | a pool of `size_` buffers over a queue of `size_ + 1` nodes: on every run without a bad step of the queue, every DoLog pushes at its first attempt |
| LogWorker.DoLogNeverWaitsFresh | sys/src/Logger.cc:67-176 | the same from the queue's premises: fresh release tags and no release of an observed tail |
| LogWorker.OneLoggerNeverWaits | sys/src/Logger.cc:67-176 | the same without a premise on the run, for the code's first tag too, if one thread logs and any threads flush |
| LogWorker.DoLogRetries | sys/src/Logger.cc:146-175 | on every run, DoLog pushes the same buffer again only after a full queue and at most 32 times; it succeeds only if its last push was not refused, and fails only at the 33rd attempt |
| LogPrints.EachLineOnce | sys/src/Logger.cc:112-125 | any logging and flushing threads, every run without a bad step of the queue: each popped buffer has been dealt with once or is in the hands of its flushing thread, so no message is printed more often than it was logged; the buffers gone from the pool for good are exactly those of lines that met a bad stream |
| LogPrints.LinesInOrder | sys/src/Logger.cc:112-125 | with one flushing thread the lines come out in the order of the pops, a prefix of the pushes, but for the one in its hands |
| LogPrints.PrintingFreesBuffer | sys/src/Logger.cc:115-123 | a line that is printed to a good stream leaves its buffer free in the pool, one that meets a bad stream does not |
| LogWorker.NeverFull | sys/src/Logger.cc:67-75 | a thread that holds a buffer and needs a node finds the free list non-empty, across all pushes, pops and releases in flight |
| Logger.Worker.constructor | sys/src/Logger.cc:67-80 | the pool and the queue with one node more |
| Logger.Worker.DoLog | sys/src/Logger.cc:146-175 | each step of the retry loop is the machine's; the 33rd attempt counts as failed whatever it does |
| Logger.Worker.FlushStep | sys/src/Logger.cc:112-125 | each step of the drain loop is the machine's; a bad stream keeps its buffer |
| Logger.Worker.RunSchedule | sys/src/Logger.cc:112-175 | any interleaving of logging and flushing threads on the object is the machine's run, if AllocBuffer gives out only buffers of the pool |
| ArrayStackLinear.StackIsLinearisable | misc/LockFreeContainer.h:48-143 | any threads, any schedule: the operations in the order of their accesses to `top_` are a run of a bounded LIFO stack, full and empty answers included; every finished call has one of them to itself, which lies between its call and its return, has its argument and says what it returned |
| ArrayStackProofs.PopReadsPushed | misc/LockFreeContainer.h:113-130 | a popper that has reserved a slot will read the value of the matching push, never an unwritten or poisoned slot |
| ArrayStackProofs.GroupLockHolds | misc/LockFreeContainer.h:54-92 | `mask_` is 65536 times the pushers inside plus the poppers inside, one count is zero, both are at most 255, and neither assertion ever fails |
| ArrayStackProofs.PoppedSlotsAreWiped | misc/LockFreeContainer.h:126-130 | a slot above `top_` that no popper is busy with holds the poison, or what it held before any push |
| ArrayStackAlone.SomeThreadFinishes | misc/LockFreeContainer.h:54-138 | the group lock does not deadlock: whenever some thread is in an operation, some thread finishes within ten steps alone |
| ArrayStackAlone.AdmitsPusher | misc/LockFreeContainer.h:56-63 | a pusher that runs alone gets in exactly while no popper and fewer than 255 pushers are inside |
| ArrayStackAlone.AdmitsPopper | misc/LockFreeContainer.h:104-111 | a popper that runs alone gets in exactly while no pusher and fewer than 255 poppers are inside |
| LockFreeStack.Stack.Push | misc/LockFreeContainer.h:48-95 | each step of Push is the machine's |
| LockFreeStack.Stack.Pop | misc/LockFreeContainer.h:97-143 | each step of Pop is the machine's |
| LockFreeStack.Stack.RunSchedule | misc/LockFreeContainer.h:48-143 | any interleaving on the object is the machine's run |
| RingQueueSound.SoundIffClean | misc/LockFreeContainer.h:184-226 | unwrapped cursors stay in order (read <= maxRead <= write < read + size), published slots hold their finished values and pops are a prefix of pushes in reservation order, all along a run, if and only if no successful compare-and-swap overruns |
| RingQueueTheorems.NoLapsIsSound | misc/LockFreeContainer.h:184-226 | all of that on every run on which no read-to-CAS window spans a lap |
| RingQueueTheorems.SomeProducerPublishes | misc/LockFreeContainer.h:195-205 | whenever maxRead_ differs from write_, exactly one producer in flight owns the slot at maxRead_: its publication succeeds once it has stored, all other publications wait |
| RingQueueTheorems.OneEachIsSound | misc/LockFreeContainer.h:184-226 | one pusher and one popper: every run is sound, without a premise |
| RingQueueTheorems.FullAnswerIsRight | misc/LockFreeContainer.h:184-195 | with a single pusher, Push says full, at whatever step, only when the ring is full, and then does when it reads `read_` |
| RingQueueTheorems.EmptyAnswerIsRight | misc/LockFreeContainer.h:208-221 | with a single popper, Pop says empty, at whatever step, only when nothing is published, and then does when it reads `maxRead_` |
| RingQueueAnswers.FullToldIff | misc/LockFreeContainer.h:184-195 | any threads, every run without overrun: Push says full only where it reads `read_`, and unless the ring has gone round since it read `write_`, the answer is true if and only if no slot has been reserved since |
| RingQueueAnswers.EmptyToldIff | misc/LockFreeContainer.h:208-221 | likewise Pop says empty only where it reads `maxRead_`, and truly if and only if nothing has been published beyond the position it had read |
| RingQueueAnswers.TrueFullIff | misc/LockFreeContainer.h:184-195 | every size, every set of pushers and of poppers: on their runs without overrun full is always true if and only if the size is 1, or at most one thread pushes, or nobody pops |
| RingQueueAnswers.TrueEmptyIff | misc/LockFreeContainer.h:208-221 | ... and empty is always true if and only if the size is 1, or at most one thread pops, or nobody pushes |
| RingQueueAnswers.PushedIsPublished | misc/LockFreeContainer.h:197-205 | as a Push answers true, `maxRead_` passes its slot, which was the next to publish and holds its value |
| RingQueueCalls.AnswersAreTrue | misc/LockFreeContainer.h:184-226 | every run of any threads, from any state and without a premise: between its call and its return a Push that answers true reserves one slot, for its argument, a Pop that answers true takes one value, its answer, and the others do neither; different calls reserve and take different ones |
| RingQueueAlone.FinishesAlone | misc/LockFreeContainer.h:184-226 | from any state, at most seven steps alone finish an operation or bring a push to where it waits to publish |
| RingQueueAlone.WaitsForAnother | misc/LockFreeContainer.h:200-205 | a push waits only while another producer in flight owns an earlier slot, which that one can publish |
| RingQueueExact.SafeSidesIff | misc/LockFreeContainer.h:184-226 | every size, every set of pushers and every set of poppers: all runs of all numbers of threads are sound if and only if the size is 1, or nobody pushes, or nobody pops, or one thread pushes and one pops |
| RingQueueCounter.LappedPopRepeatsValue | misc/LockFreeContainer.h:213-221 | for every size from 2 on, any pusher and any two poppers: a run on which a lapped pop returns a value a second time |
| RingQueueCounter.LappedPushHidesValues | misc/LockFreeContainer.h:188-205 | for every size from 2 on, any two pushers and any popper: a run on which a lapped push hides published values behind an empty answer |
| LockFreeQueue.Queue.Push | misc/LockFreeContainer.h:184-206 | each step of Push is the machine's |
| LockFreeQueue.Queue.Pop | misc/LockFreeContainer.h:208-226 | each step of Pop is the machine's |
| LockFreeQueue.Queue.RunSchedule | misc/LockFreeContainer.h:184-226 | any interleaving on the object is the machine's run |
| BufferPoolSound.SoundIffClean | misc/src/LockFreeBuffer.cc:65-105 | free, used and in-flight buffers partition all buffers in every state of a run if and only if no allocation installs a stale successor |
| BufferPoolSound.FreshStep | misc/src/LockFreeBuffer.cc:65-105 | with release tags above the initial tags, no (tag, node) pair becomes head twice, so a successful allocation installs the true successor; every step keeps this |
| BufferPoolSeed.SafeSeedIff | misc/src/LockFreeBuffer.cc:52-61 | all runs of all numbers of threads are sound if and only if the first release tag exceeds all initial tags or there is one buffer |
| BufferPoolSeed.CodeSeedSafeIff | misc/src/LockFreeBuffer.cc:52-61 | with the code's seed, if and only if there is one buffer |
| BufferPoolAlone.FinishesAlone | misc/src/LockFreeBuffer.cc:65-105 | from any state at most six steps alone finish any operation |
| BufferPoolAlone.AllocatesAlone | misc/src/LockFreeBuffer.cc:65-84 | wherever AllocBuffer stands and whatever others have done meanwhile: from there on alone, it returns the first buffer of the list it finds and leaves the rest of the list, and null exactly if the list is empty |
| BufferPoolAlone.ReleasesAlone | misc/src/LockFreeBuffer.cc:86-105 | likewise ReleaseBuffer leaves its buffer in front of the list it finds |
| BufferPoolCalls.AnswersAreTrue | misc/src/LockFreeBuffer.cc:65-105 | every run of any threads without a stale allocation: AllocBuffer answers with the buffer that it has unlinked from the front of the list, once, between its call and its return, and null only with an empty list; ReleaseBuffer puts its own buffer in front, once; no buffer is given out again unless it was released in between |
| LockFreeBuffer.Pool.constructor | misc/src/LockFreeBuffer.cc:41-62 | the list that InitList threads through the buffers |
| LockFreeBuffer.Pool.AllocBuffer | misc/src/LockFreeBuffer.cc:65-84 | each step of AllocBuffer is the machine's |
| LockFreeBuffer.Pool.ReleaseBuffer | misc/src/LockFreeBuffer.cc:86-105 | each step of ReleaseBuffer is the machine's |
| ThreadListProofs.ListIsSound | misc/src/PerThreadMemory.cc:161-228 | one allocating owner, any releasers: the list is acyclic and ends in null, and listed, used and in-flight nodes partition the population_ + 1 nodes |
| ThreadListProofs.PopSeesSuccessor | misc/src/PerThreadMemory.cc:171-185 | the owner's successful compare-and-swap sees an unchanged `next` and removes exactly the head of the list, without tags |
| ThreadListProofs.NumberIsRight | misc/src/PerThreadMemory.cc:161-234 | node_number is the list length plus releases between counting and linking minus the owner's pop between counting and unlinking; no assertion fails; Cleaner is never reached |
| ThreadListProofs.SizeAtRest | misc/src/PerThreadMemory.cc:299-305 | when no operation is under way, Size() is population_ + 1 minus the nodes in use, the dummy included |
| ThreadListAlone.FinishesAlone | misc/src/PerThreadMemory.cc:161-228 | in every state of every run at most six steps alone finish any operation |
| ThreadListCalls.AnswersAreTrue | misc/src/PerThreadMemory.cc:161-235 | every run of one owner and any releasers: an allocation answers with the node that it has unlinked from the front of the list, once, between its call and its return, and which is in use then; null only with an empty list; a release puts its own node in front, once; no node is given out again, and the dummy not at all, unless it was released before |
| PerThreadMemory.NodeHead.constructor | misc/src/PerThreadMemory.cc:109-156 | the linked nodes, with the dummy taken |
| PerThreadMemory.NodeHead.GetFreeBufferFromList | misc/src/PerThreadMemory.cc:161-189 | each step of the owner's pop is the machine's |
| PerThreadMemory.NodeHead.DoReleaseBuffer | misc/src/PerThreadMemory.cc:194-235 | each step of a release is the machine's |
| LogFile.AcceptedIff | slog/LogFileAppender.cc:26-42 | AppendRaw gets all bytes out if and only if no write fails, other than by EINTR, while bytes are left |
| LogFile.LogFile.AppendRaw | slog/LogFileAppender.cc:26-42 | the write loop puts exactly the accepted prefix into the file, for every behaviour of write |
| LogFile.LogFile.Append | slog/LogFileAppender.cc:44-52 | the new file and buffer, for every behaviour of write |
| LogFile.LogFile.Flush | slog/LogFileAppender.cc:54-59 | the new file, and an empty buffer |
| AsyncLogTheorems.NothingLostOrReordered | slog/AsynLogAppender.cc:82-182 | any writers, any schedule: file, file buffer, and the bytes that the remaining batch and `*m_pb1` point to, read from memory now, are everything ever queued in lock order, if no write has dropped bytes |
| AsyncLogCalls.AppendQueuesOnce | slog/AsynLogAppender.cc:82-136 | any writers, any schedule: a call of Append that has ended has queued its own message exactly once between its call and its end; or nothing, and then it ended where the pool was empty with more than 1024 * m_fix_sz buffers outside, or after Stop in its failed assertion; different calls have queued different records |
| AsyncLogTheorems.BytesStay | slog/AsynLogAppender.cc:95-113 | the bytes that a waiting record points to are what they were when it was queued |
| AsyncLogTheorems.AllOnDiskAtExit | slog/AsynLogAppender.cc:145-182 | when the logging thread has ended, all records are handled, no byte is left in a buffer, and the file holds everything exactly once in order if and only if no write has dropped bytes |
| AsyncLogTheorems.InterruptsAreHarmless | slog/AsynLogAppender.cc:138-182 | if write fails only with EINTR, however short its counts, nothing is dropped and everything is on disk at exit |
| AsyncLogStop.StopWritesEverything | slog/AsynLogAppender.cc:45-55 | from every state after Stop, if nothing was dropped, the logging thread on its own ends, with everything queued in the file exactly once and in order |
| AsyncLogStop.LoggerCatchesUp | slog/AsynLogAppender.cc:138-182 | from every state of every run, stopped or not, if nothing was dropped, a bounded number of steps of the logging thread alone brings everything queued so far into the file, exactly once and in order |
| AsyncLogTheorems.ExitIsFinal | slog/AsynLogAppender.cc:45-55 | nothing is queued or written after the logging thread has ended |
| AsyncLogTheorems.BuffersHaveOnePlace | slog/FixedBuffer.h:142-165 | each buffer is in the pool, in one writer's slot, in one record that gives it back, or deleted; m_unrecyled counts those in slots and records; no copy overruns a buffer |
| AsyncLogTheorems.MemoryIsBounded | slog/FixedBuffer.h:142-203 | never more than 1024 * m_fix_sz + 16 buffers, and GetBuff leaves a writer without a buffer only when more than 1024 * m_fix_sz are outside the pool |
| AsyncLogTheorems.ShrinksOnlyWhenIdle | slog/AsynLogAppender.cc:156-161 | buffers are deleted only from the pool, in the eighth idle turn with nothing queued, and never one of the first m_fix_sz |
| AsyncLogTheorems.PendingIsLength | slog/AsynLogAppender.cc:126-164 | m_curPendingMsg is the number of records in `*m_pb1` |
| AsynLogAppender.Appender.AppendStep | slog/AsynLogAppender.cc:82-114 | each step of Append, or of the thread's exit, is the machine's |
| AsynLogAppender.Appender.AddToWriter | slog/AsynLogAppender.cc:116-136 | the critical section: the record goes to the back of `*m_pb1`, or the assertion on m_running fails |
| AsynLogAppender.Appender.WakeUp | slog/AsynLogAppender.cc:150-165 | one turn of the waiting loop: wait on, shrink at the eighth idle turn, swap, or end |
| AsynLogAppender.Appender.HandleRecord | slog/AsynLogAppender.cc:167-177 | one record is written or its buffer is recycled |
| AsynLogAppender.Appender.RunSchedule | slog/AsynLogAppender.cc:45-201 | any interleaving on the object is the machine's run |
| FixedBuffer.Buffer.Append | slog/FixedBuffer.h:76-84 | the message is copied behind the write position and nothing else changes |
| FixedBuffer.Pool.GetBuff | slog/FixedBuffer.h:142-157 | null exactly if the pool is empty and too many buffers are outside; else the buffer recycled last, or a new one |
| FixedBuffer.Pool.Recycle | slog/FixedBuffer.h:159-165 | the buffer is reset and goes to the back of the pool |
| FixedBuffer.Pool.Shrink | slog/FixedBuffer.h:172-185 | the pool keeps its first m_fix_sz buffers |
| FixedBuffer.Pool.EnlargePoolUnsafe | slog/FixedBuffer.h:188-203 | 16 new buffers, unless too many are outside |
| Mailbox.PermitsBalance | thread/src/WorkerBodyBase.cc:79-108 | queued tasks and commands are the permits, plus pushed-not-posted, plus consumed-not-taken |
| Mailbox.TasksRunInOrder | thread/src/WorkerBodyBase.cc:117-145 | the worker runs the accepted tasks in push order and never receives a null task; the others are still queued, across stops and restarts; done_ counts the finished ones |
| Mailbox.SleepsOnlyWhenEmpty | thread/src/WorkerBodyBase.cc:83-100 | a worker asleep without a permit has an empty mailbox and no command, unless a poster has yet to signal |
| Mailbox.StopKeepsTasks | thread/src/WorkerBodyBase.cc:216-239 | after a stop, every unrun task is still queued with its permit, so a restart runs it |
| Mailbox.CommandsFirst | thread/src/WorkerBodyBase.cc:102-145 | whatever the posters do meanwhile, a command that is queued when the worker has a permit is executed before any task: no task runs, every queued one stays queued, and after four steps of its own the worker has stopped, until the next start |
| Mailbox.PermitIsUsed | thread/src/WorkerBodyBase.cc:79-108 | a running worker with nothing in its hands and a permit takes a task or a command within seven steps of its own |
| Mailbox.AsksBeforeSleeping | thread/src/WorkerBodyBase.cc:83-100 | while it finds no work a worker has made as many requests as timed waits, and it sleeps without a time-out only after four |
| MailboxCalls.AnswersAreTrue | thread/src/WorkerBodyBase.cc:173-197 | every run of any posters: a PostTask that answers true has put its own task into the mailbox, once, between its call and its return, and PostExit one command; false only with nothing put in and a full queue; different calls put in different ones |
| WorkerBody.Worker.GetRunTask | thread/src/WorkerBodyBase.cc:79-108 | each step of GetRunTask is the machine's |
| WorkerBody.Worker.RunStep | thread/src/WorkerBodyBase.cc:117-145 | each step of the run loop is the machine's |
| WorkerBody.Worker.PostStep | thread/src/WorkerBodyBase.cc:173-197 | each step of PostTask or PostExit is the machine's |
| PoolLiveness.NeverWedges | thread/src/ThreadPool.cc:225-285 | with any affinities there is always a token, a token being spent, a chosen freeWorker_, a task on its way, or a worker that has work or owes its first request |
| PoolLiveness.SomeWorkerWakesDispatcher | thread/src/WorkerBodyBase.cc:79-145 | while the dispatcher waits and there is no token, some worker is awake, and running it alone posts a token after finitely many steps |
| PoolLiveness.NoNullTask | thread/src/WorkerBodyBase.cc:102-107 | a worker that has a permit finds a task |
| PoolLiveness.AsksBeforeSleeping | thread/src/WorkerBodyBase.cc:83-100 | while it finds no work a worker has posted one token for each timed wait, and it sleeps without a time-out only after four |
| PoolTasks.EachTaskInOneStage | thread/src/ThreadPool.cc:240-294 | each accepted task is in exactly one of queue, dispatcher, one mailbox, one worker, finished, or refused by a full mailbox; no task is started twice |
| PoolTasks.FreeMeansIdle | thread/src/ThreadPool.cc:240-282 | without affinities, a worker's bit is set exactly when it has nothing outstanding, else it has exactly one task; no mailbox overflows and no accepted task is lost |
| PoolAffinity.TasksGoWhereTheyShould | thread/src/ThreadPool.cc:240-266 | with any affinities, every task that has left the queue was fetched for the worker its affinity names, or, without a valid one, for freeWorker_, whose bit was set then; and it is on its way to that worker, in its mailbox, run or finished by it, or was refused by its full mailbox |
| PoolAffinity.AffinityIsKept | thread/src/ThreadPool.cc:255-265 | a task with a valid affinity is in no other mailbox and run by no other worker |
| PoolAffinity.ChoiceIsKept | thread/src/ThreadPool.cc:225-266 | the dispatcher chooses the first worker whose bit is set, and a worker stays chosen until it is given a task |
| PoolAffinity.TasksAreThePosts | thread/src/ThreadPool.cc:378-381 | PostTask refuses a task exactly when the queue is full; the tasks of the pool are the others, with their affinities, in order |
| PoolOrder.MailboxesAreInOrder | thread/src/Worker.cc:18-29 | of two tasks put into the same mailbox, the one put there first is started first |
| WorkerMask.SelectFreeWorker | thread/src/ThreadPool.cc:172-211 | -1 exactly if the mask is 0, otherwise the lowest set bit |
| WorkerMask.IsolatesLowest | thread/src/ThreadPool.cc:176 | sel & (~sel + 1) is the lowest set bit alone, for words of any width |
| WorkerMask.FirstMaskIs | thread/src/ThreadPool.cc:89-90 | the two shifts leave exactly workerNum_ low bits set, for 1 to 64 workers |
| WorkerMask.IntBitIsOneBit | thread/src/ThreadPool.cc:277 | the int shift names one worker's bit alone if and only if the id is at most 30 |
| WorkerMask.SetStands | thread/src/ThreadPool.cc:277 | setting a worker's bit marks exactly that worker free, for up to 32 workers |
| WorkerMask.ClearStands | thread/src/ThreadPool.cc:248 | clearing it marks exactly that worker busy |
| WorkerMask.LowestIsFirstFree | thread/src/ThreadPool.cc:172-211 | the lowest bit of the mask is the first free worker |
| ThreadPool.Dispatcher.constructor | thread/src/ThreadPool.cc:60-93 | all workers free, one token each |
| ThreadPool.Dispatcher.PrepareWorker | thread/src/ThreadPool.cc:225-238 | each step is the machine's |
| ThreadPool.Dispatcher.DispatchTask | thread/src/ThreadPool.cc:240-266 | each step is the machine's |
| ThreadPool.Dispatcher.SetWorkerNotify | thread/src/ThreadPool.cc:268-286 | a request posts a token and changes no bit; a finished task sets the worker's bit and posts no token |
| ThreadPool.Dispatcher.WorkerRun | thread/src/WorkerBodyBase.cc:79-145 | each step of a worker is the machine's |
| ThreadPool.Dispatcher.RunSchedule | thread/src/ThreadPool.cc:172-294 | any interleaving on the object, with its mask, is the machine's run |
| Numerals.DecimalReadsBack | slog/LogStream.cc:15-61 | the text of every integer is a decimal number and reads back as the integer |
| Numerals.DecimalIsCanonical | slog/LogStream.cc:15-61 | every decimal number without superfluous zeros or sign is the text of the integer it reads as |
| Numerals.HexReadsBack | slog/LogStream.cc:63-86 | the text of every pointer value reads back as the value |
| Numerals.HexIsCanonical | slog/LogStream.cc:63-86 | every such hexadecimal number is the text of the value it reads as |
| Numerals.NumbersFit | slog/LogStream.cc:34-52 | the text of every 64-bit value, the minimum included, fits the 32-byte reserve with its NUL |
| LogStream.Convert | slog/LogStream.cc:15-30 | the digits of the value's magnitude, last first, from truncated division and the 19-character table, and a NUL; nothing else changes |
| LogStream.Reverse | slog/LogStream.cc:46 | the range is reversed in place and nothing else changes |
| LogStream.Stream.Convert64 | slog/LogStream.cc:32-48 | nothing without 32 bytes of room; else the canonical text and a NUL are appended and no other byte changes |
| LogStream.Stream.Convert64U | slog/LogStream.cc:50-61 | the same for unsigned values |
| LogStream.Stream.ConvertHex | slog/LogStream.cc:63-86 | the same for pointers, given the room that the code takes for granted |

## Left out

- Weak memory orders, and tag counters wrapping round at 2^64: tags are unbounded naturals.
- The 128-bit plain reads and stores of a `DoublePointer` (misc/src/LockFreeList.cc:87, :113) are one step each here; a `DoublePointer` with one null half does not occur, so pointers are null or a tag and a node.
- Fairness and starvation. The theorems that a thread finishes, or wakes the dispatcher, on its own give the finite run, not that a scheduler takes it.
- Callers of the allocators release only what they were given, once; a second release is not modelled.
- ListQueueAnswers.NeverMissesIff: is stated for one pusher; with several pushers a queue of three or more nodes that anybody pops from is not sound in the first place.
- `LockFreeStack::IsEmpty` (misc/LockFreeContainer.h:145-148) returns the count; `IsEmpty` and `Size` of the containers are plain reads.
- PerThreadMemoryAlloc: the body of Cleaner, which is never reached; starting a second list after FreeCurThreadMemory; the padding checks. Releasing the dummy is a release like any other.
- Timestamps, the semaphores that wake the log worker, and truncation of long messages. LOG_NO_PENDING (sys/Logger.h) only adds a semaphore post and a yield after a push that succeeds; attempts and answers are the same.
- AsynLogAppender: one appender instance; the crash-time Flush(false) and the signal handlers; buffers of threads that exit after the appender is gone; out-of-memory exceptions; a message longer than a buffer, which no caller produces.
- AsyncLog: buffers have identities that are never reused after Shrink deletes them; the pool's Reset and push_back are one step.
- Stop of the appender may come at any time; an append that it overtakes fails its assertion, and the machine keeps that thread there.
- Thread-pool shutdown and cancellation, TryGetTask and ClearAllTask. What PostTask of a full mailbox loses under heavy affinity is the stage Lost.
- PoolDispatch: the dispatcher's own queue is fetched from when it is not empty; its semaphore is the one of Mailbox. Which queued task comes first is left open, so any priority order is covered. The exit command does not occur before shutdown.
- ThreadPool.Dispatcher.constructor: does not admit 33 to 64 workers, which the source accepts, because `1 << id` on an int is undefined for ids from 32 on (thread/src/ThreadPool.cc:248, :277). For worker 31 the model takes the two's complement value that gcc gives.
- Mailbox: commands are all the exit command, and both queues have the same capacity.
- HTTP, sockets, daemon code, streams, printf and floating-point formatting, clocks.
