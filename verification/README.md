# A verified model of the STREAMS core of LiS

LiS implements SVR4 STREAMS, section 2.6 of the System Interfaces volume of IEEE Std 1003.1-2001. This project models the
parts of it that are data structures and protocols rather than kernel glue, and proves what they are for. Everything is
Dafny; `dafny verify dfyconfig.toml` checks the whole project.

| file | models | form |
|---|---|---|
| `Priority.dfy` | sequences sorted by message class, and the reference they refine: one FIFO sequence for each class | lemmas |
| `BandIndex.dfy` | messages and the per-band records that ride on top of a queue | class, lemmas |
| `MsgQueue.dfy` | one queue of `head/queue.c`: the doubly linked list, the band records, counts, flow-control flags, flush | class |
| `Plumbing.dfy` | `q_next` links: attach, detach, FIFO, pipe; the canput and back-enable searches | class |
| `Deferred.dfy` | deferred puts with concurrent putters, drains and flag changes | state machine |
| `MsgHeap.dfy` | headers, embedded data blocks and `db_ref` of `head/msg.c`, `lis_dupb` | class |
| `MsgUtl.dfy` | chains of blocks, `lis_xmsgsize`, `lis_pullupmsg`, `lis_freemsg` | methods on the class |
| `StreamHead.dfy` | `lis_strread`, `copyout_msgpart`, `lis_strgetpmsg` | class |
| `RunQueue.dfy` | the run list and the scan list with any number of runners, `lis_qenable`, `lis_qdetach` | state machine |
| `OpenClose.dfy` | `lis_stropen` and `lis_doclose` with any number of threads | state machine |
| `DeltaTimers.dfy` | the delta list of `head/port-mdep.c` | class |
| `TimerTable.dfy` | the hashed handle table of `head/dki.c` | class |

The two state machines with threads (`OpenClose`, `RunQueue`) and `Deferred` take one step for each section under a lock;
their theorems speak of every interleaving. The classes are sequential: each method is one call of the source's function,
and what holds over every run is what each method keeps. Values the source gets from outside (what an allocator returns,
whether an address is aligned, what a driver's open routine answers, what a timeout routine does) are parameters.

## What the proofs found

The code was kept as it is. Where a property that its comments or its structure suggest does not hold, the exact
condition is proved and, where a run is needed to see it, a run is exhibited.

- `lis_insq` refuses to put a message behind a high-priority message whose `b_band` is smaller, although the order allows
  it (head/queue.c:1052-1061). `MsgQueue.Queue.InsQ` accepts exactly the ordered positions that are not of this kind.
- `flush_worker` clears QWANTW (head/queue.c:1463) and re-arms it only if the queue had been full and is now low; and
  each band that is put back wipes a record, with the writer that waits on it. What is left of flow control afterwards is
  exact in `MsgQueue.Queue.Flush`, and so is, in terms of the queue before it, when a refused writer is forgotten;
  `MsgQueue.FlushForgetsWriter` exhibits it.
- On a closing queue `lis_putq` frees the message it refuses, and `flush_worker` frees it again
  (head/queue.c:975, 1522-1523): `MsgQueue.FlushFrees`.
- A queue can be on the run list and on the scan list at once, or enter the scan list while a runner has it: `lis_qenable`
  does not test QSCAN, `add_to_scanl` tests neither QENAB nor QRUNNING. With these tests every queue would be in one place
  at a time (`RunQueue.ScheduledOnce`). Without them, an operation can be followed by two runners sharing a queue exactly
  if it fails one (`RunQueue.OrderlyIsExact`), and exactly then by `lis_qdetach` freeing a queue that a runner has
  (`RunQueue.FreedIsExact`): the first of the two to finish clears QRUNNING. `RunQueue.SharedIsReachable` and
  `RunQueue.SharedQueueFreed` are an instance.
- `mark_closing` clears QSCAN of a queue that a runner is just taking off the scan list, so that `add_to_scanl` enters it
  again; the runner then clears the QSCAN of the second entry, `deschedule` does not look for it, and the freed queue stays
  on the scan list: `RunQueue.FreedOnScanList`. Late entries of this kind are exactly what can go wrong there
  (`RunQueue.ScanOnceIffNotLate`, `RunQueue.LateIsFreed`), and only closing queues make them
  (`RunQueue.OnlyClosingIsLate`).
- The end of a scan run does not retry a deferred enable (head/stream.c:200-214): `RunQueue.ScanEndStrands`,
  `RunQueue.EnableStranded`.
- A drain of the deferred list that takes a message while others wait behind it puts it back and stops
  (head/safe.c:189). Once two messages wait, nothing put to the queue is ever delivered again, and only then:
  `Deferred.DeliversOnlyTheLast`, `Deferred.JamIsReachable`.
- A queue between that is switched off or closing ends the back-enable search before it reaches the writer
  (head/queue.c:904-926): `Plumbing.CanPutNextThenBackEnable` is an equivalence.
- A message that was pulled up while its own external buffer was shared loses that buffer if it is freed last: the clause
  about `use.lost` of `MsgHeap.Heap.FreeDb` is exact, `MsgUtl.LosesBuffer` does it to every such message, and
  `MsgUtl.ShareBuffer` makes one.
- Time saved when the timer list runs empty inside `port_announce_time` is taken off the next timer, which counts from
  the last deadline instead of the clock: `DeltaTimers.EarlyTimer`, `DeltaTimers.EarlyByFive`.
- `lis_untimeout(0)` finds a free timer structure, because free ones have handle 0 and are on list 0:
  `TimerTable.Table.Untimeout`.
- In byte-stream mode a zero-length message ends a read and is not put back (head/head.c:5816-5824):
  `StreamHead.Ended`. After the control part was read with buffer space to spare, a later getmsg reports a control
  length of 0, not -1 (`StreamHead.CopyoutMsgPart`).

- An opener that has just created a head does not compare the device (head/head.c:4758). Until it has `sd_opening`
  another opener can find the head and have the driver change its device; the creator then joins a file on a device it
  did not ask for: exactly then, by `OpenClose.MisledExactly`, and `OpenClose.CreatorIsMisled` is a run that does.

## Model

| member | source | states |
|---|---|---|
| OpenClose.KeepInv | head/head.c:4668-5041 | every step of every thread in open (refused clone opens included) and close keeps the invariant that ties references, open counts, STRCLOSE, both semaphores and devices to what the threads hold |
| OpenClose.RunInv | head/head.c:8512-8597 | that invariant holds after every run of any number of threads |
| OpenClose.NoUseAfterFree | head/head.c:72-228 | no thread works on a freed stream head; `sd_refcnt` and `sd_opencnt` are the numbers of threads that own a unit of them; STRCLOSE implies open count 0 |
| OpenClose.OneHeadPerDevice | head/head.c:4244-4349 | two heads that are not closing never carry the same non-clone device |
| OpenClose.AttachedOnce | head/head.c:4803-4809 | of the opens of a head that is or was open exactly one was a first open, the one the driver attaches to |
| OpenClose.OpensWhatItGets | head/head.c:4751-4787 | in every run, a file that an opener has on a head it found is on the device it asked for, or on the one that the driver answered to this very open, as long as it is open |
| OpenClose.RacesRestart | head/head.c:4751-4787 | in every run, an opener that finds another device on a head it did not create, or STRCLOSE, releases `sd_opening`, gives its reference back and starts over; any other joins the file or opens the driver |
| OpenClose.MisledExactly | head/head.c:4758-4765 | an opener that joins an open head is on another device than it asked for if and only if it had created the head and another opener changed its device before the check, which creators skip; the device then stays |
| OpenClose.CreatorIsMisled | head/head.c:4758-4765 | a run in which that happens |
| OpenClose.OpenGoesOn | head/head.c:4668-5041 | an open under way stays one until the file is open for it; only a clone open fails, and only if the driver refuses it or answers a device in use |
| OpenClose.NonCloneOpens | head/head.c:4668-5041 | an open of a non-clone device ends only with the file open, however often it starts over |
| OpenClose.ClosedForGood | head/head.c:8512-8597 | STRCLOSE once set stays set with open count 0; a head is freed only by its last holder, after being dismantled exactly once |
| OpenClose.LastReference | head/head.c:667-759 | who gives the last reference back has closed and dismantled the head |
| OpenClose.NoNestedWait | head/head.c:191-196 | in every reachable state nobody waits for `sd_opening` while holding `lis_stdata_sem`, nor for a semaphore that he holds |
| OpenClose.NoDeadlock | head/head.c:191-196 | in every reachable state with an open or a close under way some such thread can step |
| RunQueue.KeepInv | head/stream.c:141-365 | every operation, whatever callers do, keeps the run list, QENAB, QRUNNING, QWANTENAB and detaching pairs consistent |
| RunQueue.RunInv | head/stream.c:244-365 | the same over every run |
| RunQueue.RunListOnce | head/stream.c:244-284 | in every run a queue is at most once on the run list or with one runner that has just taken it off; `lis_runq_req_cnt` is the length of both lists; nothing freed is on the run list |
| RunQueue.EnableStaysPending | head/queue.c:1300-1377 | in every run, from `lis_qenable` to the next start of the service procedure the queue is marked QENAB or QWANTENAB, unless it is closing or switched off, and QENAB means somebody will serve it |
| RunQueue.EnablesExactly | head/queue.c:1282-1377 | in every run, `lis_qenable` and a retry put a queue at the end of the run list exactly if it has something to run and none of six bits is set; otherwise the enable is deferred, except for a queue that is only closing |
| RunQueue.RetryRescues | head/queue.c:1282-1298 | after a retry no enable is stuck: a stuck queue is on the run list |
| RunQueue.BitsAreOwned | head/stream.c:141-365 | which operation changes which of six bits of which queue, and that nothing else does |
| RunQueue.ListsAreFifo | head/stream.c:244-284 | run list and scan list are first in, first out; only deschedule takes from the middle |
| RunQueue.SleeperIsWoken | head/head.c:1977-2032 | in every run, while `lis_qdetach` sleeps, a runner has one of its queues and will see QWAITING |
| RunQueue.GuardsAreExact | head/head.c:8083-8213 | deschedule misses nothing on the run list, and on the scan list exactly a queue whose QSCAN is clear |
| RunQueue.KeepScanOk | head/head.c:1413-1442 | every operation but a late entry keeps the scan list free of repetitions and of freed queues |
| RunQueue.ScanOnceIffNotLate | head/head.c:1413-1442 | that holds throughout a run if and only if no queue enters the scan list while a runner is taking it off |
| RunQueue.OnlyClosingIsLate | head/head.c:8219-8247 | the first late entry is of a closing queue |
| RunQueue.FreedWhenIdle | head/head.c:2126-2206 | when `lis_qdetach` frees a pair, the run list never holds it, the scan list not unless there was a late entry, and no runner has it if callers were orderly |
| RunQueue.KeepTidy | head/stream.c:141-225 | every operation of an orderly caller keeps each queue in one place |
| RunQueue.ScheduledOnce | head/stream.c:141-225 | with orderly callers a queue is once on one list or with one runner, and nothing freed is anywhere |
| RunQueue.NoScanIsOrderly | head/head.c:1413-1442 | callers are orderly in every run without entries in the scan list |
| RunQueue.OrderlyIsExact | head/queue.c:1313-1326 | an operation can be followed by a shared queue, by the work of the runners alone, if and only if it is not orderly |
| RunQueue.FreedIsExact | head/head.c:2126-2206 | an operation can be followed by `lis_qdetach` freeing a queue that a runner has, by the work of runners and detaching alone, if and only if it is not orderly |
| RunQueue.SharedIsReachable | head/head.c:1413-1442 | a run in which two runners share a queue |
| RunQueue.SharedQueueFreed | head/head.c:2126-2206 | an instance: from there, a queue is freed while a runner has it (before or after its service procedure proper, from which the queue lock keeps `lis_qdetach`) |
| RunQueue.LateIsFreed | head/head.c:1413-1442 | after any late entry, of a pair whose read queue is at rest, the queue can be freed while on the scan list |
| RunQueue.FreedOnScanList | head/head.c:8219-8247 | a run in which that happens, without any pick of a queue marked QRUNNING |
| RunQueue.ScanEndStrands | head/stream.c:200-225 | in every run, which operations leave a deferred enable that nothing retries: never the end of a service run |
| RunQueue.StrandedSince | head/queue.c:1282-1298 | an enable is stuck only if one of these stranded it, and it has been stuck ever since |
| RunQueue.EnableStranded | head/stream.c:200-214 | an orderly run that ends with an enable stuck and nothing left to do |
| Priority.LastInClass | head/queue.c:580-631 | inserting behind the class keeps the order and makes a message the last of its class (FIFO) |
| Priority.FirstInClass | head/queue.c:536-578 | inserting in front of the class keeps the order and makes a message the first of its class (LIFO) |
| Priority.SpotIffSorted | head/queue.c:1047-1067 | a place keeps the order exactly if it lies in or at an end of the run of the class |
| Priority.ClassesDetermine | head/queue.c:519-634 | a sorted queue is determined by what each class holds: the list refines one FIFO sequence for each class |
| Priority.OfIsSlice | head/queue.c:395-405 | in a sorted queue a class is one contiguous run |
| Priority.TakeThenPutBack | head/queue.c:937-1020 | getq followed by putbq of the same message gives the identical queue |
| Priority.PutAllStable | head/queue.c:1494-1541 | putting messages one by one keeps the order within each class and sorts |
| Priority.PutAllSorted | head/queue.c:1494-1541 | putting the messages of a sorted queue one by one gives the same queue |
| BandIndex.InsBanded | head/queue.c:463-504 | putting a banded message at an ordered place, and growing or founding the record of its band, keeps the index |
| BandIndex.DelBanded | head/queue.c:706-743 | taking a banded message out and shrinking or freeing its record keeps the index |
| BandIndex.InsUnbanded | head/queue.c:469-476 | a message outside the bands adds its size to what `q_count` counts and leaves the index alone |
| MsgQueue.Queue.constructor | head/queue.c:1383-1415 | an empty queue meets the invariant |
| MsgQueue.Queue.FindQband | head/queue.c:406-455 | gives the record of the band, or an unused one that is wiped, or a new one at the head of the list; the index is kept |
| MsgQueue.Queue.UpdateQueue | head/queue.c:463-517 | count, band record and all flow-control flags, those of every other band included, after an insertion are exact, and `lis_qenable` is called exactly when it should be |
| MsgQueue.Queue.FindSpotTail | head/queue.c:580-631 | the place behind the last message of the class; a high-priority message put on a non-empty queue gets band 0 |
| MsgQueue.Queue.FindSpotHead | head/queue.c:536-578 | the place before the first message of the class |
| MsgQueue.Queue.InsBefore | head/queue.c:642-674 | the links are those of the list with the message at that place |
| MsgQueue.Queue.AdjustQCount | head/queue.c:706-761 | count, index and flags become those of the queue without the message; the waiting writer of a drained band, and of no other, is passed on to the queue |
| MsgQueue.Queue.RmvMsg | head/queue.c:770-799 | the list without the message, all invariants kept |
| MsgQueue.Queue.BackEnable | head/queue.c:878-905 | the search is due exactly if a writer waits or the queue closes, and there is room; then QWANTW is clear and every refused writer has been searched for, and no band record changes |
| MsgQueue.Queue.GetQ | head/queue.c:937-958 | takes the first message; flow control afterwards, band by band, is that of the removal followed by the search, if one is due; every refused writer is remembered by its own band or by QWANTW, or has been searched for |
| MsgQueue.Queue.RmvQ | head/queue.c:1081-1118 | takes out exactly the given message, with the same exact flow control |
| MsgQueue.Queue.BCanPut | head/queue.c:2130-2157 | true exactly if the band is at most at its high water mark, or QFULL is clear; a refusal is remembered by QB_WANTW of that band, or QWANTW, and no flag of any other band changes |
| MsgQueue.Queue.PutQ | head/queue.c:963-986 | inserts behind the class; order, index and counts are kept, only the band put to can become full, and no waiting writer is forgotten; a closing queue frees the message |
| MsgQueue.Queue.PutBq | head/queue.c:997-1020 | inserts in front of the class, with the same guarantees |
| MsgQueue.Queue.GetThenPutBack | head/queue.c:937-1020 | getq and putbq of what it returned leave the identical queue |
| MsgQueue.Queue.InsQ | head/queue.c:1033-1075 | accepts exactly the ordered places that do not follow a high-priority message of a smaller band |
| MsgQueue.InsqGuard | head/queue.c:1050-1061 | the test of `lis_insq` against the order it is to keep |
| MsgQueue.Queue.DeferMsg | head/queue.c:1194-1227 | appends to the deferred list and counts the message |
| MsgQueue.Queue.Flush | head/queue.c:1440-1579 | leaves exactly the retained messages of both lists, re-put in order, frees the rest, rebuilds counts and index, and the full flags of the queue and of every band as if filled afresh; on an open queue a search is made exactly if there is room and the queue had been full or a writer waited on a band record that was not used again; a refused writer is forgotten exactly under a condition on the queue before |
| MsgQueue.Queue.FlushSelects | head/queue.c:1484-1528 | what a flush frees: no message of another band; of band 0 exactly the ordinary ones; of another band, or of the whole queue, all of them or exactly M_DATA, M_PROTO, M_DELAY and M_PCPROTO |
| MsgQueue.Queue.FlushRemembers | head/queue.c:1545-1575 | that condition, from the two retained sequences: enough records for their bands, or the queue had been full (or closes) and their bytes outside the bands are at most at low water |
| MsgQueue.FlushedSize | head/queue.c:1494-1541 | a flush leaves the bytes and the bands that were retained |
| MsgQueue.SparedAreFreed | head/queue.c:1545-1553 | the writers a flush finds waiting on bands are those on records not used again, and chk_band frees them all |
| MsgQueue.FlushKeepsOrder | head/queue.c:1425-1431 | with nothing deferred the queue holds the retained messages in the order they were in |
| MsgQueue.FlushMerges | head/queue.c:1536-1541 | deferred messages come last of their class |
| MsgQueue.FlushFrees | head/queue.c:1504-1528 | on an open queue each message is retained or freed, once; on a closing one each retained message is freed twice |
| MsgQueue.RecordOfBand | head/queue.c:395-455 | a band with messages has one record; its pointers are the ends of its run and its count is the size of that run |
| MsgQueue.FillSmall | head/queue.c:2130-2157 | two messages fill a queue, a writer is refused and remembered |
| MsgQueue.FlushForgetsWriter | head/queue.c:1463-1559 | on that queue a flush of the data leaves the other message, makes no search, and no flag remembers the writer |
| Plumbing.BackQIsInverse | head/queue.c:839-856 | `backq` is the exact inverse of `q_next`, at the twist of a FIFO or a pipe too |
| Plumbing.NoReturn | head/head.c:2232-2300 | no walk along `q_next` comes back |
| Plumbing.AttachedNet | head/head.c:2461-2467 | attaching keeps every stream mirrored and acyclic |
| Plumbing.DetachedNet | head/head.c:2232-2300 | detaching keeps every stream mirrored and acyclic |
| Plumbing.AttachThenDetach | head/head.c:2232-2300 | detaching what was just attached restores all links |
| Plumbing.QAttach | head/head.c:2461-2467 | the assignments of `lis_qattach` give those links, for linear streams, FIFOs and pipes |
| Plumbing.QDetach | head/head.c:2232-2300 | the assignments of `lis_qdetach` lead everybody around the pair |
| Plumbing.FifoOpen | drivers/str/fifo.c:306-310 | in any net, making a stream without modules a FIFO sets that one link and keeps the net |
| Plumbing.JoinedNet | head/user-mdep.c:103-130 | two streams made separately are one net |
| Plumbing.Twist | head/user-mdep.c:126-130 | making two FIFOs a pipe keeps the net |
| Plumbing.MakePipe | head/user-mdep.c:103-130 | the history of a pipe: two new FIFOs, twisted, have exactly the links of a pipe |
| Plumbing.ForwardSearch | head/queue.c:2113-2116 | the first queue with a service procedure, or the last of the stream |
| Plumbing.BackwardSearch | head/queue.c:900-926 | the whole list of queues that the search from any queue enables; along the way a writer was sent it is exactly that writer, or nobody if a queue between is off |
| Plumbing.FoundExactly | head/queue.c:900-926 | a queue is enabled exactly if it is upstream, may be enabled, and no queue between is off or ends the search |
| Plumbing.CanPutNextThenBackEnable | head/queue.c:2171-2177 | the two searches are dual exactly if no queue between is off |
| Deferred.KeepInv | head/safe.c:155-216 | puts, drains and flag changes keep delivered, in hand and deferred equal to the arrivals, in order, with at most one drain |
| Deferred.NoOvertaking | head/queue.c:1229-1272 | the put procedure gets messages in the order in which they were put |
| Deferred.DeliversExactly | head/safe.c:155-200 | in every run, a put or a drain delivers at once exactly if the queue is on, not opening, and nothing is deferred (nor, for a put, being drained); otherwise the message is deferred at its place in the list |
| Deferred.OneDrain | head/queue.c:1235-1241 | two threads never drain a queue at once |
| Deferred.JamStays | head/queue.c:1229-1272 | once two messages wait, no sequence of puts, drains and flag changes delivers anything |
| Deferred.JamIsReachable | head/queue.c:1194-1227 | a run after which the queue is on, two messages wait and nothing can be delivered |
| Deferred.DeliversOnlyTheLast | head/safe.c:189-194 | in every run, something can still be delivered if and only if not two messages wait |
| MsgHeap.Heap.constructor | head/msg.c:325-364 | the empty store meets the invariant |
| MsgHeap.Heap.InitB | head/msg.c:325-364 | a header that was free becomes a message over the given buffer; reference counts and ownership are kept |
| MsgHeap.Heap.AllocB | head/msg.c:396-445 | a new message with an internal or an external buffer, or no change at all |
| MsgHeap.Heap.EsbAlloc | head/msg.c:477-511 | a new message over the caller's buffer |
| MsgHeap.Heap.DupB | head/msgutl.c:295-313 | a duplicate shows the same bytes; all counts stay exact |
| MsgHeap.Heap.FreeDb | head/msg.c:518-707 | gives up exactly the references it owns; which buffer is released and which is lost; every other message keeps its bytes |
| MsgHeap.Heap.FreeB | head/msg.c:714-719 | the message is gone, every other keeps its bytes, and without pullup nothing is lost |
| MsgHeap.GiveUpOwn | head/msg.c:563-614 | giving up the own data block keeps `db_ref` equal to the pointers plus the own use |
| MsgHeap.GiveUpOther | head/msg.c:563-680 | the same for another header's block |
| MsgHeap.LastPointer | head/msg.c:622-645 | a header freed through a duplicate is not in use |
| MsgHeap.ReleaseBuffer | head/msg.c:566-601 | a buffer is released only while it is there and no message points at it |
| MsgHeap.DropHeader | head/msg.c:634-662 | a header is freed only when nothing points at it; nobody else notices |
| MsgHeap.ReleasedAtLastFree | head/msg.c:563-601 | without pullup a buffer is released exactly by the last message that shows it |
| MsgHeap.Duplicate | head/msgutl.c:303-309 | pointing a second message at a block and counting it keeps all counts |
| MsgHeap.HandOver | head/msgutl.c:473-480 | moving a data block from the helper header to the message keeps all counts |
| MsgUtl.XMsgSize | head/msgutl.c:163-177 | the bytes in the leading blocks of one type |
| MsgUtl.CopyBytes | head/msgutl.c:440-447 | the bytes leave one block and arrive behind those of the other, within its buffer; nobody else's bytes change |
| MsgUtl.PassNext | head/msgutl.c:431-458 | each pass keeps what was copied followed by what remains; emptied blocks leave the chain and are freed |
| MsgUtl.PullAll | head/msgutl.c:431-458 | the loop copies exactly the requested number of bytes |
| MsgUtl.TakeOver | head/msgutl.c:473-480 | the message ends up over the new block, others untouched |
| MsgUtl.PullupMsg | head/msgutl.c:378-484 | succeeds exactly if it can; then the bytes and their types are the same, enough of them in the first block, duplicates and other messages untouched; else nothing changes |
| MsgUtl.LosesBuffer | head/msgutl.c:473-484 | any one-block message over its own external buffer that one other shares, pulled up and freed after the other, loses the buffer |
| MsgUtl.ShareBuffer | head/msgutl.c:295-313 | allocb and dupb make such a message |
| MsgUtl.HasMoved | head/msgutl.c:431-480 | a pulled-up message points at the new header and still holds an external buffer that others share |
| MsgUtl.FreeMsg | head/msg.c:724-733 | all blocks are freed, no other message notices |
| StreamHead.Head.ReadMsg | head/head.c:5764-5793 | what goes to the user followed by what is left is the message; which blocks are left |
| StreamHead.LeftBytes | head/head.c:5764-5804 | what a partial read leaves of a message holds exactly its other bytes, and is nothing if more were wanted than it has |
| StreamHead.LeftIsTail | head/head.c:5764-5793 | it is the last blocks of the message with their kinds and marks, the first of them possibly cut |
| StreamHead.Head.ReadNext | head/head.c:5745-5823 | one pass: the rest of the message alone goes back in front of an otherwise unchanged queue, or is discarded; when the read returns |
| StreamHead.Head.Read | head/head.c:5654-5829 | RNORM and RMSGN conserve bytes and leave the rest of the message they stopped in, and the messages behind it; RMSGD drops only the rest of its message; message modes stop at the boundary; why a short read is short; termination |
| StreamHead.Head.ReadSeries | head/head.c:5798-5804 | in any series of RMSGN reads none spans two messages, and what the reads at one message return is that message, in order |
| StreamHead.CopyoutMsgPart | head/head.c:1855-1945 | exactly the first bytes of the part are copied and trimmed; `more` exactly if some remain |
| StreamHead.Head.GetMsg | head/head.c:6540-6556 | both parts, both flags, and the message leaves the queue exactly if no bytes remain |
| StreamHead.Head.GetMsgs | head/head.c:6540-6556 | the parts returned by any series of calls concatenate to the original |
| DeltaTimers.Timers.AddTimer | head/port-mdep.c:160-190 | the table gains the deadline clock less saved time plus interval, before equal ones; no other deadline moves |
| DeltaTimers.Timers.DelTimer | head/port-mdep.c:195-234 | the table loses that timer; no other deadline moves |
| DeltaTimers.Timers.RunActs | head/port-mdep.c:289-291 | the table afterwards is the fold of what the timeout routine did, start by start and cancel by cancel, and time announced meanwhile; the routine cannot make more timers due now |
| DeltaTimers.Timers.FireAll | head/port-mdep.c:281-300 | fires in deadline order until nothing due is left, the table being the fold of what was fired and what the timeout routines did; terminates if these start only positive intervals and time is announced meanwhile only so often |
| DeltaTimers.Timers.Announce | head/port-mdep.c:248-305 | exactly the deadlines up to the clock are over; every deadline ever set is pending, fired or deleted, once and unchanged |
| DeltaTimers.Inserted | head/port-mdep.c:171-185 | splitting a delta keeps all deadlines |
| DeltaTimers.Removed | head/port-mdep.c:204-212 | adding a delta to the next entry keeps all deadlines |
| DeltaTimers.TableOrdered | head/port-mdep.c:152-159 | a delta list stands for ordered deadlines |
| DeltaTimers.EarlyTimer | head/port-mdep.c:248-305 | a timer started after an announcement that emptied the list counts from the last deadline: it is early exactly if the announcement came after that |
| DeltaTimers.EarlyByFive | head/port-mdep.c:248-305 | 15 ms with a 10 ms timer make the next 10 ms timer 5 ms early |
| TimerTable.Table.Find | head/dki.c:219-230 | the unique live timer of the handle, if there is one |
| TimerTable.Table.AllocHandle | head/dki.c:240-259 | the next usable handle that no timer has, within one turn of the counter |
| TimerTable.OneIsFree | head/dki.c:240-259 | there is one as long as fewer timers are live than handles are usable |
| TimerTable.ComesUp | head/dki.c:246-250 | every handle comes up within one turn |
| TimerTable.Table.AllocTimer | head/dki.c:146-160 | a free structure, or a new one |
| TimerTable.Table.Timeout | head/dki.c:264-297 | a handle nobody has, naming the new timer; all others stay |
| TimerTable.Table.Untimeout | head/dki.c:299-323 | exactly that timer stops being live; handle 0 changes nothing |
| TimerTable.Table.Expire | head/dki.c:168-211 | the function is called exactly if the timer is live, and then it is not any more |
| TimerTable.TakenOff | head/dki.c:111-144 | a timer that leaves its list leaves the table sound |
| TimerTable.PutLive | head/dki.c:97-103 | so does one that is entered under a free handle |

## Left out

Of the open/close protocol:

- OpenClose.NoDeadlock: assumes that a driver does not answer a non-clone open with a device in use; the failing non-clone open (head/head.c:5254-5268) releases `sd_opening` and dismantles without STRCLOSE.
- OpenClose.KeepInv: of the opens that fail, the clone opens that the driver refuses or answers with a device in use; failures of other opens, of a reopen, and after a clone has adopted its device are left out.
- `lis_head_put` is one step; lookup by inode, files with `f_count` above 1, STREAMS freezing and the references other parts of the system take are not modelled.
- OpenClose.OpensWhatItGets: not for the opener that created the head, whose device the source does not check; `OpenClose.MisledExactly` says what it gets.

Of scheduling:

- The queue lock of service procedures, surplus semaphore ups, and bufcalls, which share `lis_runq_req_cnt` (head/stream.c:229-235), are not part of this model; nor is `lis_qprocson` on a scheduled queue.
- RunQueue.ScheduledOnce: holds for orderly callers only, because the source does not make them orderly; `RunQueue.OrderlyIsExact` and `RunQueue.LateIsFreed` say what can happen otherwise.
- RunQueue.SharedQueueFreed: the queue lock keeps `lis_qdetach` from starting inside the service procedure proper, which the model does not show.

Of queues:

- MsgQueue.Queue.InsQ: a NULL position and a high-priority message are left out, because the source does not check the order for them.
- MsgQueue.Queue.DeferMsg: not for banded messages, whose record is wiped at each use because it has no first message (head/queue.c:445-451).
- MsgQueue.Queue.Flush: one uninterrupted operation; the source releases the queue lock while it walks the list.
- Allocation of band records succeeds; watermarks are constant with lowat below hiwat; the size of a queued message does not change; a message's class is fixed while the model looks at it.
- `lis_qenable` itself is a counter in this class; `RunQueue` models it. `lis_put_rput_q`, `lis_get_rput_q`, `lis_appq` and changes by `lis_strqset` are left out.
- Deferred.NoOvertaking: for a queue that does not pass messages on; a direct put checks and delivers in one step.
- Whether a detached queue is a pipe's end, peers and their references, and mux links are not part of this model.

Of messages:

- MsgHeap.Heap.FreeDb: the width of `db_ref` and blocks with `b_rptr` beyond `b_wptr` are left out; the lock is, too, as each call is one step.
- MsgHeap.Heap.AllocB: which free header or address comes back is a parameter; memory limits and the cache of headers are left out.
- `lis_copymsg`, `lis_msgpullup`, `lis_adjmsg` from the tail and `lis_linkb` would add easier members.

Of the stream head:

- StreamHead.Head.Read: for queues of M_DATA messages with M_DATA blocks; copyout failures, sleeping, hangup, M_READ and the other message types are left out. Blocks are values here; sharing is the subject of `MsgHeap`.
- StreamHead.Head.GetMsg: for a message of normal priority with control blocks of one type before its data blocks; band and priority selection, I_PEEK's duplicate and M_SIG are left out.

Of timers:

- DeltaTimers.Timers.Announce: list links are a sequence. Time announced again and again while timeout routines run can keep the loop going for ever, so it is announced in between only finitely often.
- TimerTable.Table.AllocHandle: the counter does not roll over in the model; its 31 low bits are the same.
- TimerTable.Table.Find: negative handles index outside the table in the source and are excluded.
- A system timer that fires after `lis_untimeout` has recycled its structure is not told apart from the new one, as in the source.

Not modelled at all: the Linux VFS and kernel glue, ioctl processing, autopush, event lists, bufcalls, fattach, statistics,
debug printing.
