# Pleroma: concurrency, compiler and kernel core

A Dafny model of the parts of Pleroma whose correctness is not obvious, and proofs of what they are for.

**The archived runtime's queue** (`concurrentqueue.h`, `lightweightsemaphore.h`, `blockingconcurrentqueue.h`).
Each protocol is a transition system with any number of threads in which one step is one atomic operation.
`FreeList` proves the reference-counted lock-free list, `Tickets` the optimistic dequeue counters, `Semaphore` and
`BlockingQueue` the exact counting invariants that make the spinning consumer sound, `ProducerHash` the table of
producers that grows under its users. `BlockRing` and `ImplicitIndex` are classes updated in place: the ring of
blocks with its doubling index refines a plain sequence, and consumers in the middle of a lookup find their block
although the index they loaded has been replaced. `Circular` and `Slots` justify unbounded indices and masks.

**The Hylic tool chain** (`codegen.rs`, `opcodes.rs`, `pbin.rs`, `vm.rs`). `Bytes`, `Opcodes` and `Tables` are the
binary format with its round trips; `Syntax`, `Codegen`, `Generator` and `Linking` the compiler passes down to the
linked file; `Vats` and `Machine` (module `VM`) the stack machine. `Semantics` says what a program means without any
code, and `Simulation`, `Correctness` and `EndToEnd` prove that compiling, linking, loading and running preserves it.
`Await` proves that over whole runs of a network of vats every promise is answered at most once and to the right
place; `Handlers` shows of the handlers it speaks of, from their source, what their code asks, and what it answers
when the result has come.

**Scheduling and promises**. `Hosted` is the vat scheduler of `hosted.rs`, with `HostedOrder` on the order of
messages and `HostedProgress` on getting on with them; `Pipelining` the queued calls on promises
of the archived evaluator, `Frames` the bitmap frame allocator, `RoundRobin` the timer interrupt.

Each transition system has a predicate for its executions, an invariant `Inv` and a lemma `Always` over all of them;
the results follow from it. Imperative code is a class or a method with loops, proved against a function of the old
state, and the laws are proved about that function.

The code differs from what one might expect in these places, and the model follows the code:

- `vm.rs` pops the right operand first and computes right operator left, so subtraction and division come out
  reversed (`Semantics.OrdersAgree`).
- `vm.rs` marks a clone of the promise as resolved; the promise in the vat stays unresolved.
- `memory.rs` compares a page number with the length of the bitmap in bytes (`Frames.FreeButRefused`).
- `hylic_eval.cpp` never sends a call that names one promise twice, or an argument promise that is already resolved
  (`Pipelining.SentIffClean`; `NamedTwiceIsLost`, `TargetNamedIsLost` and `NamedLateIsLost` are runs in which it
  loses one).
- `codegen.rs` writes the value 4 for every data and inoculation entry, and a definition's name is in scope in its
  own initialiser.
- A table count, an entity number and a function number are cut to a byte, a start and a size to 16 bits
  (`Tables.TableReads`, `Linking.SeenExactly`).

`dafny verify dfyconfig.toml` checks everything.

## Model

| member | source | states |
|---|---|---|
| FreeList.PutStep | archive/other_src/concurrentqueue.h:1464-1543 | one atomic operation of add or add_knowing_refcount_is_zero keeps every pointer inside the node table |
| FreeList.GetStep | archive/other_src/concurrentqueue.h:1478-1515 | one atomic operation of try_get keeps every pointer inside the node table |
| FreeList.StepInv | archive/other_src/concurrentqueue.h:1464-1543 | any operation of any of the threads keeps the invariant: the list is what the pointers from the head spell, without repetition; each reference word is exactly the references held plus one for being linked plus the flag; what a thread has read and relies on is still true |
| FreeList.Always | archive/other_src/concurrentqueue.h:1464-1543 | so in every interleaving of any number of threads |
| FreeList.Accounted | archive/other_src/concurrentqueue.h:1471-1475 | conservation: at every step each node is in exactly one place: owned by a client, linked, in the hands of one inserting thread, or flagged with a holder left that will insert it |
| FreeList.TakenUnflagged | archive/other_src/concurrentqueue.h:1498 | the assertion after the successful compare-exchange cannot fail |
| FreeList.UnlinksFirst | archive/other_src/concurrentqueue.h:1490-1506 | a compare-exchange that succeeds removes the first node and installs its true successor, although the successor was read earlier |
| FreeList.LastDropLinks | archive/other_src/concurrentqueue.h:1508-1511 | dropping a reference re-inserts the node exactly when it is flagged and this was the last reference |
| FreeList.NoDoubleHandout | archive/other_src/concurrentqueue.h:1478-1515 | no two try_gets return the same node unless an add of it starts in between |
| FreeList.Quiescent | archive/other_src/concurrentqueue.h:1531-1542 | when every thread is idle, each node is with a client or on the list, and following the pointers visits exactly the listed nodes |
| FreeList.RefusedWhenEmpty | archive/other_src/concurrentqueue.h:1478-1515 | in every run a try_get that ends without a node loaded a null head within the same call: at that moment the list was empty |
| FreeList.LoneGetTakes | archive/other_src/concurrentqueue.h:1478-1507 | from any moment of a run when every thread is idle and the list is not empty, a try_get left alone takes exactly the first node of the list, in seven operations |
| FreeList.LoneAddLinks | archive/other_src/concurrentqueue.h:1464-1543 | and an add left alone puts its node first on the list, in six |
| Circular.AgreesWithOrder | archive/other_src/concurrentqueue.h:476-488 | circular_less_than on wrapped indices is `<` on the unbounded ones, exactly when they are less than half the range apart |
| Circular.DistanceSurvives | archive/other_src/concurrentqueue.h:476-488 | differences of indices survive the wrap-around |
| Circular.BehindByLess | archive/other_src/concurrentqueue.h:476-488 | an index that is behind by less than the whole range is less exactly if it is behind by less than half of it |
| Tickets.WinsBounded | archive/other_src/concurrentqueue.h:1963-1997 | if every overcommit snapshot counts only failures below its ticket, tickets that win never outnumber the items |
| Tickets.StepInv | archive/other_src/concurrentqueue.h:1960-2057 | every step of enqueue, dequeue and dequeue_bulk keeps the ticket invariant, the snapshot bound among it |
| Tickets.Always | archive/other_src/concurrentqueue.h:2253-2343 | the invariant in every interleaving of one producer and any number of consumers |
| Tickets.HeadNeverPassesTail | archive/other_src/concurrentqueue.h:1997-2008 | headIndex never exceeds tailIndex, not even counting consumers that have decided to take and have not moved it yet |
| Tickets.TakesFreshIndices | archive/other_src/concurrentqueue.h:2008 | each index goes to exactly one consumer, once and for good, and only indices already enqueued |
| Tickets.LoneDequeueIsExact | archive/other_src/concurrentqueue.h:2050-2053 | the counters are eventually consistent: from a moment when all consumers are idle, the next bulk dequeue takes exactly the minimum of what it wants and what there is |
| Tickets.WrappedAgrees | archive/other_src/concurrentqueue.h:1965-1966 | on 64-bit indices both forms of the comparison decide as unbounded ones do, and the count of dequeue_bulk is exact, while no more than half the range is compared |
| Tickets.FirstOperands | archive/other_src/concurrentqueue.h:1965 | what is compared before drawing never exceeds the items present, nor falls below minus the tickets then outstanding and drawn since |
| Tickets.SecondOperands | archive/other_src/concurrentqueue.h:1987-1997 | the same for the comparison after drawing |
| Tickets.WrappingIsHarmless | archive/other_src/concurrentqueue.h:2257-2272 | so with less than half the range of items, and no consumer asleep while half the range of tickets is drawn, every decision in every run is the one of the protocol |
| Semaphore.AdvanceBalances | archive/other_src/lightweightsemaphore.h:276-416 | what each operation changes in the books of permits, tokens, waiters and pending posts |
| Semaphore.Always | archive/other_src/lightweightsemaphore.h:276-416 | waiting threads = the deficit of the counter + kernel tokens + releases not yet posted, and initial + signalled - acquired = counter + waiters, at every step of every interleaving |
| Semaphore.NeverOvergrants | archive/other_src/lightweightsemaphore.h:355-398 | no more permits are ever acquired than there were and were signalled |
| Semaphore.UndoFindsToken | archive/other_src/lightweightsemaphore.h:297-309 | a timed-out waiter that finds the counter at zero or above has a token posted or about to be posted |
| Semaphore.UndoEnds | archive/other_src/lightweightsemaphore.h:301-309 | its loop ends within two operations of its own, with a permit after all or the counter put back, unless another thread moves in between or is in the middle of a signal |
| Semaphore.BlockedMeansExhausted | archive/other_src/lightweightsemaphore.h:407-416 | no lost wake-up: threads blocked without a token or a pending post mean that every permit is taken |
| Semaphore.RefusedAtZero | archive/other_src/lightweightsemaphore.h:355-398 | tryWait and tryWaitMany give up, or go on to wait, without a permit only by an operation that finds the counter at or below zero |
| Semaphore.SpinsAtZero | archive/other_src/lightweightsemaphore.h:276-346 | the spinning part of a wait lets an attempt pass without a permit only if the counter is at or below zero, has just been changed by another thread, or the spins are used up |
| Semaphore.LoneTryTakes | archive/other_src/lightweightsemaphore.h:355-398 | left alone with permits free, tryWait, tryWaitMany, wait and waitMany acquire the smaller of what they want and what there is, at once: counter and books change by exactly that |
| Semaphore.LoneTryRefused | archive/other_src/lightweightsemaphore.h:355-398 | left alone with none free they acquire nothing and change nothing |
| Semaphore.LoneRestTakes | archive/other_src/lightweightsemaphore.h:342-345 | a waitMany that has waited for its first permit and is left alone then takes as many more as it wants and there are |
| Semaphore.LoneWaitTakesOne | archive/other_src/lightweightsemaphore.h:287-294 | past the spinning, one operation takes a permit if one is free and else lowers the counter and blocks; a blocked thread takes a posted token |
| Semaphore.LoneSignalPosts | archive/other_src/lightweightsemaphore.h:407-416 | signal left alone raises the counter by its count and posts one token for each waiter it releases |
| BlockingQueue.Refines | archive/other_src/blockingconcurrentqueue.h:123-186 | every step of the queue is a step of the semaphore or does not concern it |
| BlockingQueue.StepBalances | archive/other_src/blockingconcurrentqueue.h:123-447 | what each step changes in the books of items and permits |
| BlockingQueue.Always | archive/other_src/blockingconcurrentqueue.h:123-447 | items in the queue = permits available + items not yet signalled + permits acquired and not yet used, in every interleaving |
| BlockingQueue.NeverSpinsOnEmpty | archive/other_src/blockingconcurrentqueue.h:294-335 | a consumer that repeats inner.try_dequeue never faces an empty queue |
| BlockingQueue.QuiescentCount | archive/other_src/blockingconcurrentqueue.h:123-130 | when every thread is idle the counter is the number of items |
| BlockingQueue.LoneDequeueTakes | archive/other_src/blockingconcurrentqueue.h:294-370 | with permits free at any moment of a run, try_dequeue, try_dequeue_bulk and wait_dequeue left alone deliver exactly the smaller of what they want and the permits |
| BlockingQueue.LoneDequeueRefused | archive/other_src/blockingconcurrentqueue.h:294-335 | without permits try_dequeue and try_dequeue_bulk change nothing |
| BlockingQueue.LoneEnqueuePuts | archive/other_src/blockingconcurrentqueue.h:123-186 | with nobody waiting, an enqueue left alone adds its items and as many permits |
| BlockingQueue.EnoughThere | archive/other_src/blockingconcurrentqueue.h:123-447 | in every run there are at least as many items as permits free |
| Slots.SlotIsMask | archive/other_src/concurrentqueue.h:2022 | adding an offset of either sign and masking with size - 1 is the slot that far around the ring |
| BlockRing.Block.IsEmpty | archive/other_src/concurrentqueue.h:1575-1598 | true exactly if every flag of the block is set |
| BlockRing.Block.ResetEmpty | archive/other_src/concurrentqueue.h:1657-1669 | every flag is cleared |
| BlockRing.Block.SetEmpty | archive/other_src/concurrentqueue.h:1602-1609 | exactly the flag of that slot, counted from the end, is set |
| BlockRing.EmptyMeansFinished | archive/other_src/concurrentqueue.h:1575-1598 | a block found empty has had every one of its elements moved out, so it may be reused |
| BlockRing.FinishedIsEmpty | archive/other_src/concurrentqueue.h:1575-1598 | and conversely one whose elements have all been moved out is found empty |
| BlockRing.ListsNext | archive/other_src/concurrentqueue.h:1939-1944 | an entry written at the front slot extends the list of blocks the index holds |
| BlockRing.AbreastSees | archive/other_src/concurrentqueue.h:2014 | a front of the index in use sees the ring, however many blocks ago it was loaded |
| BlockRing.SeesTurned | archive/other_src/concurrentqueue.h:1862-1917 | whatever front sees the ring still does after a block was reused or added |
| BlockRing.StaleFrontFinds | archive/other_src/concurrentqueue.h:2013-2022 | base, offset and mask lead to the right block from any front that sees the ring |
| BlockRing.ExplicitProducer.constructor | archive/other_src/concurrentqueue.h:1776-1792 | an empty producer |
| BlockRing.ExplicitProducer.ReuseNext | archive/other_src/concurrentqueue.h:1862-1865 | the oldest block, all moved out, becomes the tail block; ring and contents stay right |
| BlockRing.ExplicitProducer.InsertBlock | archive/other_src/concurrentqueue.h:1901-1917 | a pool block is linked in behind the tail block |
| BlockRing.ExplicitProducer.AddToIndex | archive/other_src/concurrentqueue.h:1939-1944 | the new tail block is the newest block of the index |
| BlockRing.ExplicitProducer.NewBlockIndex | archive/other_src/concurrentqueue.h:2361-2398 | an index twice the size lists the same blocks in the same order |
| BlockRing.ExplicitProducer.NextIsEmpty | archive/other_src/concurrentqueue.h:1862 | the block ahead is found empty exactly when every element of the oldest block has been moved out |
| BlockRing.ExplicitProducer.HasLeeway | archive/other_src/concurrentqueue.h:1879-1885 | a new block is refused exactly when the wrapped indices put the head no less than half the range behind the end of that block |
| BlockRing.ExplicitProducer.LeewayIsHalf | archive/other_src/concurrentqueue.h:1879-1885 | so nothing is refused while the distance is less than half the range |
| BlockRing.ExplicitProducer.StartBlock | archive/other_src/concurrentqueue.h:1858-1944 | the whole of enqueue at a block boundary: the oldest block is reused exactly when all of it has been moved out, whatever memory there is; else there is a new block, with a larger index exactly if the index is full, or a failure exactly when the leeway, the index or the block is missing |
| BlockRing.ExplicitProducer.Enqueue | archive/other_src/concurrentqueue.h:1854-1957 | the sequence grows by the element at its end, or, on failure, stays; whether it succeeds, grows the ring or replaces the index is settled by the state it finds; a replaced index is left as it was |
| BlockRing.ExplicitProducer.Claim | archive/other_src/concurrentqueue.h:2008 | the next index, to be moved out by this consumer alone |
| BlockRing.ExplicitProducer.Locate | archive/other_src/concurrentqueue.h:2013-2022 | the lookup finds the ring block that holds the index, from any header and front that see the ring |
| BlockRing.ExplicitProducer.Finish | archive/other_src/concurrentqueue.h:2025-2046 | in whatever order claims are completed, each gets the element that was enqueued at its index |
| BlockRing.ExplicitProducer.Dequeue | archive/other_src/concurrentqueue.h:1960-2057 | without interference, the first element of the sequence is removed and returned |
| BlockRing.Shared.Enqueue | archive/other_src/concurrentqueue.h:1854-1957 | enqueuing, with any number of blocks reused and indexes replaced, succeeds as without consumers and makes nothing unseen that a consumer in the middle of its lookup has loaded |
| BlockRing.Shared.LoadFront | archive/other_src/concurrentqueue.h:2013-2014 | the front loaded from the header in use or from one replaced since sees the consumer's block |
| BlockRing.Shared.Finish | archive/other_src/concurrentqueue.h:2013-2046 | with header and front loaded at any time since the claim, a consumer gets the element that was enqueued at its index |
| ImplicitIndex.ImplicitProducer.constructor | archive/other_src/concurrentqueue.h:2428-2434 | an empty index |
| ImplicitIndex.ImplicitProducer.NewBlockIndex | archive/other_src/concurrentqueue.h:2971-3013 | after doubling every live block is found as before and the next slot has never been used |
| ImplicitIndex.ImplicitProducer.Insert | archive/other_src/concurrentqueue.h:2906-2938 | the next block has the newest entry and the others keep theirs; with memory to grow it never fails |
| ImplicitIndex.ImplicitProducer.Publish | archive/other_src/concurrentqueue.h:2537-2538 | the block is live |
| ImplicitIndex.ImplicitProducer.Rewind | archive/other_src/concurrentqueue.h:2940-2944 | a failed allocation is undone: what was live is live, the next insertion reuses the slot |
| ImplicitIndex.ImplicitProducer.Free | archive/other_src/concurrentqueue.h:2591-2594 | exactly this block is no longer live |
| ImplicitIndex.ImplicitProducer.Lookup | archive/other_src/concurrentqueue.h:2946-2969 | for every index in a live block both assertions hold and the entry is that of its block |
| ImplicitIndex.SeesInsert | archive/other_src/concurrentqueue.h:2906-2938 | an insertion, into a reused slot or a larger index, moves no entry that a stale header and tail lead to |
| ImplicitIndex.SeesRewind | archive/other_src/concurrentqueue.h:2940-2944 | nor does undoing one |
| ImplicitIndex.Shared.Insert | archive/other_src/concurrentqueue.h:2906-2938 | inserting keeps everything good that consumers have loaded |
| ImplicitIndex.Shared.Rewind | archive/other_src/concurrentqueue.h:2940-2944 | so does rewinding after a failed allocation |
| ImplicitIndex.Shared.LoadTail | archive/other_src/concurrentqueue.h:2952-2953 | the tail loaded from the header in use or from one replaced since is at or behind the block looked for |
| ImplicitIndex.Shared.LoadKey | archive/other_src/concurrentqueue.h:2954-2955 | the key at that tail is valid and cannot change while the block is live |
| ImplicitIndex.Shared.Find | archive/other_src/concurrentqueue.h:2958-2961 | with header, tail and key loaded at different times, both assertions hold and the entry is that of the block |
| ProducerHash.Bigger | archive/other_src/concurrentqueue.h:3467-3470 | the doubled capacity is more than twice the count |
| ProducerHash.StepInv | archive/other_src/concurrentqueue.h:3393-3538 | every atomic step of any thread keeps the invariant of the hash tables |
| ProducerHash.NotHere | archive/other_src/concurrentqueue.h:3417-3453 | probing that ends at an empty slot proves the thread is not in that table |
| ProducerHash.AlwaysRoom | archive/other_src/concurrentqueue.h:3417 | in every run every table keeps a free slot |
| ProducerHash.ProbesEnd | archive/other_src/concurrentqueue.h:3417-3453 | no probing loop, searching, inserting or copying, goes once around its table |
| ProducerHash.SameProducer | archive/other_src/concurrentqueue.h:3421-3448 | across any number of concurrent resizes and lazy copies a thread gets the same producer every time |
| ProducerHash.OwnProducers | archive/other_src/concurrentqueue.h:3499-3530 | no two threads get the same producer |
| ProducerHash.LoneEnds | archive/other_src/concurrentqueue.h:3393-3538 | from any reachable state in which no other thread is resizing, a thread left alone ends, with the producer it had if it had one, within a number of its own operations bounded by the sizes of the tables and the count |
| ProducerHash.GrowsWhenHalfFull | archive/other_src/concurrentqueue.h:3460-3490 | in every run a table is added only when the newest is half full, and the new one is at least twice as large and no larger than the count needs |
| ProducerHash.RoomIsAQuarter | archive/other_src/concurrentqueue.h:3496-3502 | a thread with a count gets a place in a table exactly if the count leaves a quarter of it free, even while another thread resizes |
| ProducerHash.NeverOverfull | archive/other_src/concurrentqueue.h:3496-3502 | in every run no table has a thread whose count does not |
| ProducerHash.PowersOfTwo | archive/other_src/concurrentqueue.h:3463-3470 | every capacity is 32 doubled a number of times, as masking with capacity - 1 needs |
| ProducerHash.EndsCopied | archive/other_src/concurrentqueue.h:3421-3448 | whoever has got its producer is in the table that was newest when it looked: found in an older one, it has been copied |
| Bytes.ReadPutU16 | src/bin_helpers.rs:44-47 | to_be_bytes is undone by the reader, whatever follows |
| Bytes.ReadPutU32 | src/bin_helpers.rs:49-52 | to_be_bytes is undone by the reader, whatever follows |
| Bytes.ReadPutU64 | src/bin_helpers.rs:54-57 | to_be_bytes is undone by the reader, whatever follows |
| Bytes.PutSpells | src/bin_helpers.rs:39-57 | the bytes written spell the number, most significant first |
| Bytes.ReadSpelt | src/bin_helpers.rs:39-57 | what is read is the number that the bytes spell |
| Bytes.ReadTextLoop | src/bin_helpers.rs:79-93 | the text up to the first NUL and its size with the NUL; None exactly if there is no NUL |
| Bytes.ReadPutText | src/bin_helpers.rs:79-93 | a written text reads back exactly if it has no NUL in it |
| Opcodes.DecodeEncodeValue | src/opcodes.rs:67-124 | a value reads back with its exact size, exactly if its text has no NUL |
| Opcodes.DecodeEncode | src/opcodes.rs:126-292 | an instruction reads back with its exact end wherever it stands, exactly if its texts have no NUL |
| Opcodes.OpcodeDeclared | src/opcodes.rs:39-64 | the first byte of an instruction is the place of its kind in the declaration |
| Opcodes.Written | src/opcodes.rs:126-213 | the bytes of each instruction, operand by operand |
| Opcodes.ValueWritten | src/opcodes.rs:97-124 | the bytes of each value: its tag and its contents |
| Opcodes.SweepLoop | src/pbin.rs:117-121 | the disassembler loop gives the instructions read and where reading ended, and panics exactly where decoding does |
| Opcodes.SweepEncoded | src/pbin.rs:113-122 | over any encoded instructions the sweep gives them back and stops exactly at their end |
| Opcodes.SweepInside | src/pbin.rs:113-122 | the same anywhere inside a file |
| Tables.ReadAllPut | src/pbin.rs:46-61 | rows that each read back are read back in order up to exactly their end |
| Tables.TableReads | src/pbin.rs:37-64 | a loader reads as many rows as the count byte says, the number of rows modulo 256, and stops behind them |
| Tables.TableRoundTrip | src/codegen.rs:222-248 | so a table is read whole, and reading ends where it ends, exactly below 256 rows |
| Tables.GatherHas | src/pbin.rs:57-58 | the nested map holds exactly the rows, in whatever order they were written |
| Tables.BuildNamedTable | src/codegen.rs:192-248 | both builders append the count byte and the rows, each with the value 4 |
| Tables.LoadNamedTable | src/pbin.rs:8-64 | both loaders: the map of the rows read, the cursor behind them; a panic exactly where a read fails |
| Tables.NamedRow | src/codegen.rs:207-216 | a row of the data or inoculation table reads back |
| Tables.NamedRowWritten | src/codegen.rs:207-216 | the bytes of such a row: entity number, name with its NUL, value |
| Tables.BuildFunctionTable | src/codegen.rs:252-284 | the table and the map of final starts that relocation uses |
| Tables.LoadFunctionTable | src/pbin.rs:66-95 | the map of the rows read, the cursor behind them |
| Tables.FunctionRow | src/codegen.rs:268-279 | a row of the function table reads back as its final start and size, cut to 16 bits |
| Tables.FunctionRowWritten | src/codegen.rs:268-279 | the bytes of a function row: entity and function number, start and size |
| Syntax.VariableFlow.VisitIdentifier | src/codegen.rs:144-152 | locals before entity variables before inoculation names; else unchanged |
| Syntax.VariableFlow.VisitExpr | src/ast.rs:211-261 | every identifier of an expression gets its target and nothing else changes |
| Syntax.VariableFlow.VisitStmt | src/codegen.rs:136-142 | a definition is in scope from its own initialiser on |
| Syntax.VariableFlow.VisitFunction | src/codegen.rs:126-134 | parameters are local |
| Syntax.VariableFlow.VisitEntityDef | src/codegen.rs:93-124 | entity variables and locals start afresh for each entity, inoculation names accumulate |
| Syntax.OrderUnique | src/codegen.rs:294-304 | two listings of the same names in the order of compare_function_names are equal, with create first |
| Syntax.BelowMeans | src/codegen.rs:294-304 | the order of the other names is that of the dictionary: the first byte that differs decides, and a name comes before its extensions |
| Syntax.SortByName | src/codegen.rs:294-304 | sorting what the hash map yields, in whatever order it does, gives all its functions in that order |
| Syntax.SortFunctions | src/codegen.rs:335-353 | so the pass that numbers functions and the pass that compiles them list them alike |
| Codegen.RelocatedIsLinked | src/codegen.rs:184-189 | relocation puts each callee's address into its call and changes no other byte, whatever stands before and behind |
| Codegen.SpliceCall | src/codegen.rs:187 | a splice at the recorded offset replaces exactly the address operand |
| Generator.GenCode.VisitExpr | src/codegen.rs:404-510 | code and relocations are exactly those of the items of the expression: left, right, operator; arguments, receiver, call; target, arguments, message |
| Generator.GenCode.EmitCall | src/codegen.rs:495-498 | the call is emitted with address 0 and its operand offset recorded for relocation |
| Generator.GenCode.VisitStmt | src/codegen.rs:399-482 | the value, then Lstore, Estore, Ret or Await |
| Generator.GenCode.VisitFunction | src/codegen.rs:373-397 | one Lstore per parameter in order, then the body; place and size are recorded under the next function number |
| Generator.GenCode.VisitEntityDef | src/codegen.rs:307-356 | the functions are sorted and numbered, sorted again and compiled, and the numbers fit; names of earlier entities stay |
| Generator.GenCode.VisitModule | src/ast.rs:231-235 | all entities in order |
| Generator.GenCode.RelocateFunctions | src/codegen.rs:184-189 | the code becomes the linked code |
| Linking.CompileFromAst | src/compile.rs:102-163 | the passes in their order give the header followed by the linked code |
| Linking.HeaderReadsBack | src/pbin.rs:97-110 | the three loaders, each from where the one before stopped, read the three tables back and stop where the code begins |
| Linking.ModuleUnits | src/codegen.rs:388-396 | no two functions share a pair of entity and function number |
| Linking.PlaceHolds | src/codegen.rs:374-394 | relocation moved nothing: each function's linked bytes are where its recorded place says |
| Linking.SeenExactly | src/codegen.rs:268-279 | a loaded row is the function's true start and size exactly if its numbers, start and size fit their fields |
| Linking.LinkCorrect | src/codegen.rs:252-284 | when everything fits, the loaded table gives each function's exact place in the output, its own linked instructions are there, and calls to it were relocated to that place |
| Linking.LoadedOnly | src/pbin.rs:66-95 | the loaded table holds nothing else |
| Linking.SweepsFunction | src/pbin.rs:113-122 | the disassembler reads exactly each function's instructions, calls with their callees' places, and ends exactly at its end |
| VM.Vat.PopArgs | src/vm.rs:160-164 | the popping loop takes the arguments off the stack and hands them over reversed |
| VM.Vat.LoadFunctions | src/vm.rs:314-324 | the three loaders in a row: the function table, or a panic exactly where one of them panics |
| VM.Vat.RunExpr | src/vm.rs:16-290 | the loop over instructions, and the checks after it, do to the vat what running the code means |
| VM.Vat.RunRequest | src/vm.rs:306-354 | tables loaded, root frame, arguments, run, answer |
| VM.Vat.RunResponse | src/vm.rs:355-407 | every resumption point is run on the saved stacks; the promise in the vat itself stays unresolved because a clone is updated |
| VM.Vat.RunMsg | src/vm.rs:292-410 | either kind of message |
| Vats.RunAfter | src/vm.rs:37-46 | a run continues from any state it reaches |
| Vats.RunMore | src/vm.rs:37-46 | a larger bound on its instructions does not change a run that ended |
| Semantics.OrdersAgree | src/vm.rs:66-95 | compiled and natural operand order agree exactly for addition, multiplication and equal operands |
| Semantics.NaturalOperators | src/vm.rs:52-95 | what the four operators mean, in plain arithmetic: sum, difference, product and quotient where they are bytes, nothing elsewhere |
| Semantics.MachineOperators | src/vm.rs:52-95 | the machine puts the result of that operator in place of the two numbers on top, the topmost being the left operand, and panics where there is none |
| Semantics.MachineOperands | src/vm.rs:52-95 | and panics on anything but two numbers |
| Semantics.SameMeaning | src/codegen.rs:432-443 | without subtraction and division an expression means the same in both orders |
| Semantics.SameMeaningBody | src/codegen.rs:432-443 | and so does a body |
| Semantics.PrefixMeans | src/codegen.rs:373-482 | a body means what its rest means after its definitions and assignments |
| Simulation.ReferUnmentioned | src/codegen.rs:136-142 | bringing a name into scope changes nothing for an expression that does not mention it |
| Simulation.LoadRuns | src/codegen.rs:464-470 | the load chosen for a variable loads what its lookup in the source means |
| Correctness.ParamsRun | src/vm.rs:157-184 | through push, pop, extend and Lstore, parameter i is bound to argument i |
| Correctness.ExprRuns | src/codegen.rs:432-510 | running the linked code of an expression pushes its source value, has its source effect on the entities and leaves everything else as it was |
| Correctness.FunctionCallRuns | src/codegen.rs:484-500 | the same for calls, recursive ones included |
| Correctness.FunctionRuns | src/codegen.rs:373-397 | a function, from its start on a new frame to its Ret |
| Correctness.BodyRuns | src/codegen.rs:399-482 | a body runs to its first return with its source value and effect; only its own frame changed |
| Correctness.PrefixRuns | src/codegen.rs:373-482 | definitions and assignments at the start of a body run to the code of the rest, with their source meaning |
| EndToEnd.FunctionInstalled | src/vm.rs:314-342 | the table loaded by run_msg leads to the function's own linked instructions |
| EndToEnd.RequestMeans | src/vm.rs:306-354 | compiler correctness: a request to a compiled function is answered with the value the source means, to the sender under its promise; the entities change as the source says, stacks and promises are as before |
| EndToEnd.RequestOnlyMeans | src/vm.rs:306-354 | whatever bound is put on its instructions, handling the request ends like this or not within the bound, and some bound suffices |
| EndToEnd.CompileAndServe | src/compile.rs:102-163 | the methods together: the bytes the compiler writes, run by the machine on a request, do to the vat and answer what the source means |
| EndToEnd.NaturalMeaning | src/lexer.rs:121 | without subtraction and division the meaning preserved is the natural one |
| Await.RequestShape | src/vm.rs:342-353 | a request is answered, if at all, to its sender under its promise |
| Await.ResponseShape | src/vm.rs:378-404 | a resumed handler answers, if at all, the entity and promise recorded with the awaited promise |
| Await.StepInv | src/vm.rs:292-410 | handling any message in flight keeps the invariant: every promise has exactly one witness |
| Await.Always | src/vm.rs:292-410 | so over whole runs, any message being handled next |
| Await.AtMostOneResponse | src/vm.rs:378-404 | of all responses sent in a run no two are for the same promise of the same vat |
| Await.ResponseIsAddressed | src/vm.rs:185-219 | a response in flight goes to the entity that made the promise, under its number, and the promise is still open |
| Await.NothingLost | src/vm.rs:220-240 | an open promise has its request or response in flight or a suspended handler that will answer it |
| Handlers.AskPlaced | src/codegen.rs:404-448 | what the visitors make of a message sent into a new variable that is then awaited: target, arguments, Message, Lstore, Lload, Await, and the rest of the body behind them |
| Handlers.AskRuns | src/vm.rs:185-240 | Message, Lstore, Lload, Await: the request is sent and the state to resume from is saved |
| Handlers.RequestAsks | src/vm.rs:306-354 | a request whose handler gets to those four instructions is handled as the discipline of Await demands |
| Handlers.ResponseFinishes | src/vm.rs:355-407 | its answer resumes the rest of the body with the result in the awaited variable, and whoever the handler worked for is sent what the rest means |
| Handlers.HandlerFinishes | src/vm.rs:306-354 | a request to a compiled handler that asks nothing is handled as the discipline of Await demands |
| Handlers.HandlerAsks | src/vm.rs:306-354 | a request to a compiled handler that asks: exactly what its source says is asked, of whom it says; nothing is answered; the discipline of Await is kept and the promise holds what is needed to go on |
| Handlers.HandlerAnswers | src/vm.rs:355-407 | whenever the answer comes, whatever the vat has handled in between, the handler finishes and its requester is sent what the rest of its source means |
| Hosted.Dispatcher.TriageMsg | src/hosted.rs:41-59 | the search through the sleepers and what follows are two steps of the main loop |
| Hosted.Dispatcher.DeliverMail | src/hosted.rs:61-79 | to sleep without mail, else on to a hotplate with all of it: what the main loop does with a vat it received |
| Hosted.StepInv | src/hosted.rs:12-167 | every channel operation of the main loop and of any hotplate keeps the invariant |
| Hosted.EachVatOnce | src/hosted.rs:12-167 | each vat is always in exactly one of: asleep, the two channels, one hotplate, the main loop's hand |
| Hosted.NoLostWakeup | src/hosted.rs:41-79 | no vat sleeps while there is mail for it |
| Hosted.MessagesConserved | src/hosted.rs:21-33 | every message sent is in exactly one place, having been handled counting as one |
| Hosted.HandledOnce | src/hosted.rs:21-28 | run_msg gets no message twice, and each on the vat it was sent to |
| Hosted.QuietMeansDone | src/hosted.rs:142-167 | when every vat sleeps and the message channel is empty, every message ever sent has been handled |
| HostedOrder.MainKeepsLine | src/hosted.rs:41-79 | the main loop never changes the order of the messages for a vat; it only moves the border between the batch the vat has with it and what is coming, and that when the batch is empty |
| HostedOrder.PlateAdvances | src/hosted.rs:18-38 | a step of a hotplate adds one message to the end of a vat's line, or handles the newest message of its batch, or neither |
| HostedOrder.NewestFirst | src/hosted.rs:21-28 | in every run the batch a vat has with it is handled next, the newest message first, before any other message of that vat |
| HostedOrder.SendsInOrder | src/hosted.rs:25-34 | a hotplate sends in order, what a handler sends before the outbox and what it leaves there behind it |
| HostedProgress.StepFalls | src/hosted.rs:12-167 | every step that does something brings the system nearer to rest, but for the messages that a handler sends |
| HostedProgress.GoesOn | src/hosted.rs:12-167 | as long as a vat is awake or a message on its way, with a hotplate there is such a step |
| HostedProgress.WorkBounded | src/hosted.rs:12-167 | in every run at most three steps for each vat and twenty for each message ever sent do anything |
| HostedProgress.Drains | src/hosted.rs:12-167 | from every reachable state with a hotplate the system can come to rest, and then every message ever sent has been handled |
| Pipelining.Vat.NewPromise | archive/pleroma_src/hylic_eval.cpp:42-47 | a fresh number with an open promise |
| Pipelining.Vat.EvalMessage | archive/pleroma_src/hylic_eval.cpp:204-282 | a call is sent at once or queued with a gap for every promise |
| Pipelining.Vat.ProcessResponse | archive/pleroma_src/pleroma.cpp:93-100 | the promise is resolved and its dependents are worked through in order |
| Pipelining.FireOnce | archive/pleroma_src/hylic_eval.cpp:106-153 | a call listed once is satisfied once, and sent if that completes it |
| Pipelining.ResolveShaped | archive/pleroma_src/hylic_eval.cpp:117 | every dependent waits for the promise it is listed under, so the assertion cannot fail |
| Pipelining.SendMakes | archive/pleroma_src/hylic_eval.cpp:234-262 | a queued call whose promises are open and different starts with exactly its gaps, listed once under each |
| Pipelining.SentExactlyOnce | archive/pleroma_src/hylic_eval.cpp:106-153 | such a call is sent exactly once, in the step that resolves the last promise and not before, with each promise's result in its place, in the name of the entity that processes that response |
| Pipelining.SentInOrder | archive/pleroma_src/hylic_eval.cpp:106-153 | the calls that one response completes are sent in the order in which they were made |
| Pipelining.SentIffClean | archive/pleroma_src/hylic_eval.cpp:252-262 | once all its promises are resolved, a queued call has been sent if and only if they were open and all different when it was made; otherwise it never is |
| Pipelining.WhoSent | archive/pleroma_src/hylic_eval.cpp:142 | the message of such a call, whenever it is found sent, bears the name of the entity that processed the response for its last promise |
| Pipelining.SentAtOnce | archive/pleroma_src/hylic_eval.cpp:204-282 | a call without promises is sent at once, in the name of the entity that makes it |
| Pipelining.NamedTwiceIsLost | archive/pleroma_src/hylic_eval.cpp:252-262 | a run that loses a call with one promise in two arguments |
| Pipelining.TargetNamedIsLost | archive/pleroma_src/hylic_eval.cpp:234-262 | a run that loses a call with its target promise as an argument |
| Pipelining.NamedLateIsLost | archive/pleroma_src/hylic_eval.cpp:252-262 | a run that loses a call with an argument promise that was resolved before |
| Frames.FrameAllocator.IsPageFree | src/memory.rs:161-168 | the bit of the page; a panic exactly out of range |
| Frames.HighestFirst | src/memory.rs:161-168 | the pages of a byte go from its most significant bit down |
| Frames.FrameAllocator.MarkPageUsed | src/memory.rs:170-181 | exactly that page is taken; a panic if it was, or is out of range |
| Frames.FrameAllocator.MarkPageUnused | src/memory.rs:183-190 | exactly that page is free |
| Frames.FrameAllocator.GetContiguousRange | src/memory.rs:122-159 | the lowest run of n free pages; it panics exactly if there is none that ends at a page number at most the byte length of the bitmap, a bound that a single page is not held to |
| Frames.FrameAllocator.AllocateContiguous | src/memory.rs:197-205 | exactly the pages of the lowest run are taken, and the address is that of its first page |
| Frames.GrantsDisjoint | src/memory.rs:197-205 | without frees in between, the ranges of any two allocations are disjoint |
| Frames.FreeButRefused | src/memory.rs:151-155 | a free run that is refused because a page number is compared with a byte count |
| RoundRobin.Scheduler.NewProcess | src/multitasking.rs:28-32 | the process is appended, awake, with its entry point and interrupts enabled |
| RoundRobin.Scheduler.FindNext | src/interrupts.rs:171-187 | the search ends at the nearest process ahead that is awake, or at the current one |
| RoundRobin.Scheduler.TimerInterrupt | src/interrupts.rs:141-198 | sleepers tick, the interrupted registers are saved except the first time, the next process is picked and its registers restored |
| RoundRobin.WakesOnTime | src/interrupts.rs:148-158 | a sleeper wakes at the first tick that takes the elapsed time past its timer |
| RoundRobin.ComesNearer | src/interrupts.rs:171-187 | an awake process comes strictly nearer with every tick until it runs |
| RoundRobin.RunsSoon | src/interrupts.rs:171-187 | a process awake at every tick runs within as many ticks as there are processes at the end, those started meanwhile included |
| RoundRobin.WakesInRun | src/interrupts.rs:148-158 | in any run a sleeper left alone is awake exactly once the ticks have outlasted its timer |
| RoundRobin.SleeperRuns | src/interrupts.rs:148-195 | and runs within as many further ticks as there are processes |
| RoundRobin.ResumesWhereInterrupted | src/interrupts.rs:162-195 | a dispatched process resumes with exactly the registers of its last interruption |
| RoundRobin.StartsFresh | src/multitasking.rs:61-83 | or with those it was created with, whenever that was, if it never was interrupted |

## Left out

- `concurrentqueue.h` memory orderings: every atomic operation is one step of a sequentially consistent system, which hides reorderings that the code's fences guard against.
- `concurrentqueue.h` enqueue_bulk, set_many_empty, exceptions thrown by constructors, moves and swaps of queues, destructors, thread exits with key recycling, and allocation failure in the producer hash: more cases of the same protocols.
- Tickets and FreeList work with unbounded counters; Tickets.WrappingIsHarmless says when the wrapped indices decide alike, and the free list's words stay in range because the number of threads is bounded by 2^31.
- BlockRing and ImplicitIndex: the fixed-size arrays inside a block and an index are sequences in a field, so aliasing into them is not captured.
- Kernel semaphores: a counter with atomic post, wait and try_wait; a timeout may strike at any time.
- Bytes.ReadTextLoop: text is its UTF-8 bytes; the panic of the readers on bytes that are not UTF-8 is not modelled.
- Lists inside values, and the encoding of what encode_value panics on: the panics are preconditions.
- Foreign calls and ConstructEntity: the machine's specification stops there with a result of its own.
- Arithmetic panics on overflow, as in a checked build; a build without the checks wraps instead.
- Semantics: subtraction and division have the order of the compiled code; OrdersAgree says exactly when that is the natural one. A call goes to a function of the same entity definition, as compiled, whatever the receiver.
- Syntax: imports, prints, index expressions, foreign functions and constructor calls are not part of the syntax trees. A message names its function by the number that the type of its target and the numbering pass give it, so the lookup in symbol_table is left out; a message has no meaning in Semantics, only Handlers gives it one. Inoculation and data values other than their names are dropped by the code itself.
- Linking.CompileFromAst: parsing, reading and writing files, and the passes that build the symbol table, put entity constructions in place of calls, and gather function types (src/compile.rs:111-131), whose results are written in the syntax trees; the order in which hash maps yield the rows of the tables is a parameter.
- VM.Vat.RunExpr: a run has a bound on its instructions, since the machine need not terminate; a run that exceeds it has no result.
- Await: handlers send at most one message and await it at once, and a vat makes fewer than 256 promises, because the code numbers them modulo 256 and records the responder as the requester of whatever is sent after a resumption.
- Hosted.StepInv: leaves out CreateVat, which registers an inbox under a number other than the vat's, and messages to vats that do not exist, which panic. A message handled and the messages it sends are separate steps; the order of sends within a handler is kept.
- Pipelining.Vat.ProcessResponse: leaves out callbacks, synchronous calls, returned promises and the resolution of a target to something other than an entity, which the code asserts against; a target address has a real node id.
- Frames: the construction of the bitmap from the memory map.
- RoundRobin: timers are real numbers; stacks and segments are not modelled.
- The LALRPOP parser and lexer, the archived tokenizer, parser, type solver and garbage collector, device drivers, file system, network and display code: generated, incomplete, or without an invariant worth stating.
