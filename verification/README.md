# Models and proofs of selected course projects

Each file models one core of the repository and proves what it is for. Module by module:

- `BLQueueSteps.dfy`, `BLQueue.dfy`, `BLQueueProgress.dfy`, `BLQueueEmpty.dfy`, `BLQueueMemory.dfy`: the lock-free
  segmented queue of BLQueue.c together with the hazard pointers of HazardPointer.c; the program and its invariants
  step by step, the results about all runs, progress, what EMPTY means, and what becomes of drained segments.
  One atomic load, store, exchange, compare-and-swap or fetch-and-add is one step; any number of threads take steps
  in any order, and `malloc` may hand out freed addresses again.
- `LLQueue.dfy`: the Michael-Scott queue of LLQueue.c in the same style.
- `RingsQueueSteps.dfy`, `RingsQueue.dfy`: the chain of single-producer, single-consumer rings of RingsQueue.c, under
  two locks, in the same two parts.
- `MimpiTree.dfy`, `MimpiReduce.dfy`, `MimpiCollectives.dfy`, `MimpiFlags.dfy`: the tree collectives of mimpi.c for any
  number of processes and any sequence of calls, with first-in-first-out pipes and receiver threads that move messages
  into flags and lists, and the exact condition under which a flag is taken for data.
- `Udpr.dfy`: the stop-and-wait transfer with retransmission over a network that loses, duplicates and reorders.
- `Combinators.dfy`: reduction of SKIB expressions in project1.hs, up to confluence and normalization.
- `SameGame.dfy`, `GameOfLife.dfy`: two algorithms that change a board and a list in place. Names follow the
  Polish names of the sources.
- `Poset.dfy`, `SeqTrie.dfy`: a transitive closure kept in place, and a trie with reference-counted classes over an
  explicit memory.
- `Regex.dfy`, `RegexSyntax.dfy`: derivatives of regular expressions, and printing and parsing with the precedences
  of the yacc grammar as a shift-reduce machine.
- `Seam.dfy`: the dynamic program for an optimal seam.

The choices of the environment (which thread moves, which address `malloc` returns or that it fails, which datagram
arrives) are arguments of the step functions or nondeterministic choices, and every theorem quantifies over all of
them.

## Main results

- Queues: `BLQueue.MemorySafety`, `BLQueue.Conservation`, `BLQueue.FirstInFirstOut`, `BLQueue.CallOutcomes`,
  `BLQueueProgress.ReturnsAlone`, `BLQueueEmpty.EmptyUnlessLinking`, `BLQueueMemory.NothingLeaks`;
  `LLQueue.StepsOfAQueue`, `LLQueue.CallOutcomes`, `LLQueue.ReturnsAlone`; `RingsQueue.StepsOfAQueue`,
  `RingsQueue.CallOutcomes`, `RingsQueue.NoOverwrite`, `RingsQueue.NoDeadlock`.
- MIMPI: `MimpiCollectives.EveryCallAnswers`, `MimpiCollectives.BarrierSeparates`,
  `MimpiCollectives.CollectivesMakeProgress`, `MimpiFlags.StolenIffUnsafe`, `MimpiFlags.SafeProgramsWork`.
- UDPR: `Udpr.SuccessMeansPrinted`, `Udpr.PrintedTwiceIffFirstAcceptedTwice`, `Udpr.TransferSucceedsIff`,
  `Udpr.RejectionIsPossibleIff`.
- SKIB: `Combinators.Confluence`, `Combinators.RPathNormalizes`, `Combinators.RStepIsLeftmostOutermost`.
- Regular expressions: `Regex.AcceptIffInLanguage`, `RegexSyntax.ParsesExactly`, `RegexSyntax.RoundTrip`.
- In-place algorithms: `SeqTrie.Seq.SeqAdd`, `SeqTrie.Seq.SeqRemove`, `SeqTrie.Seq.SeqEquiv`,
  `GameOfLife.Lista.NowaGeneracjaLista`, `SameGame.UsunGrupe`, `Poset.PosetData.Add`, `Poset.PosetData.Del`,
  `Seam.FindOptimalSeam`.

## Where the sources differ from what they promise

- GameOfLife.c: for exactly one live cell the second loop is never entered, because the cursor has moved on before
  the candidates are appended (line 181). `GameOfLife.Lista.NowaGeneracjaLista` states that the result is the next
  generation if and only if the list does not hold exactly one cell, and what the result is otherwise.
- mimpi.c: `MIMPI_Recv` looks at the barrier flag before anything else, whatever it is asked for (lines 325-328). A
  process that is still waiting for the data of a broadcast or reduction can therefore take the signal that a faster
  process has sent in a later barrier, and return without data. `MimpiFlags.StolenIffUnsafe` states for exactly which
  sequences of calls this happens in some run; `MimpiFlags.ReductionThenBarrier` and `MimpiFlags.SumThenBarrier` are
  sequences for which it does, `MimpiFlags.GuardedBarriersAreSafe` describes some for which it does not.
- BLQueue.c: a push that adds a segment moves the tail pointer before it stores `next` (lines 105-108). Until then
  pops that get to the end of the old segment return EMPTY, even if pushes to the new segment have returned before
  they were called. `BLQueueEmpty.EmptyUnlessLinking` states that this window is the only one in which EMPTY is false,
  and `BLQueueEmpty.FalseEmpty` is a run in which it is.
- BLQueue.c: `BLQueue_is_empty` compares the two counters of the first segment for equality (lines 163-174). A pop
  that finds nothing moves the counter of pops on, so the test then denies that the queue is empty, as in
  `BLQueueEmpty.EmptyQueueDenied`; without concurrent calls its other answer is right
  (`BLQueueEmpty.EmptyAnswerIsTrue`).
- UDPR server: the size of a packet is compared with what is still missing before its number is looked at (lines
  109-127 of server_udpr.c). When the last, short packet is awaited, a repetition of an earlier one, which the protocol
  means to be ignored, is therefore rejected, and the transfer fails although nothing was lost.
  `Udpr.RejectionIsPossibleIff` states for which data this can happen.
- UDPR client: an RCVD that overtakes the last ACC makes the client fail after all data has been printed
  (`Udpr.FailureAfterPrinting`).
- UDPR server: a duplicated CONN that arrives after a session has ended starts another session, which may print the
  data again. Within a session every packet is printed once. `Udpr.PrintedTwiceIffFirstAcceptedTwice` states exactly
  when it happens in terms of the datagrams the server accepts, and `Udpr.OneConnPrintsOnce` that it cannot happen
  without a second CONN.

## Model

| member | source | states |
|---|---|---|
| BLQueue.MemorySafety | II year/concurrent-programming/non-blocking-queues/HazardPointer.c:44-108 | In every interleaving of any number of pushers, poppers and emptiness tests, with freed addresses handed out again by `malloc`, every node a thread is about to read or write is allocated, and nothing is freed twice |
| BLQueueSteps.MemStep | II year/concurrent-programming/non-blocking-queues/BLQueue.c:77-174 | Each atomic step of push, pop, is_empty, protect, clear and retire keeps the reclamation invariant: a node that a thread will use is published in that thread's slot and is neither private nor freed, and a scan has not passed a slot that still protects the node it looks at |
| BLQueueSteps.SlotStep | II year/concurrent-programming/non-blocking-queues/BLQueue.c:77-161 | Each atomic step keeps the slot invariant: a slot goes from EMPTY to a stored value to TAKEN, or from EMPTY to TAKEN, and each slot index belongs to at most one push and at most one pop |
| BLQueue.Conservation | II year/concurrent-programming/non-blocking-queues/BLQueue.c:77-161 | For values other than EMPTY and TAKEN: what pops have taken from a slot is what a push stored there; a stored value not yet taken is in its slot of an allocated node, and if the slot has been claimed, exactly the claiming pop is about to take it |
| BLQueue.PopTakesStoredValue | II year/concurrent-programming/non-blocking-queues/BLQueue.c:128-140 | The value that the exchange of a pop is about to return was stored in that slot by a push and has not been taken by any other pop |
| BLQueue.FirstInFirstOut | II year/concurrent-programming/non-blocking-queues/BLQueue.c:77-161 | A push that stored its value before another push was called owns the earlier slot, and whoever takes the second value claimed its slot after the first slot was claimed |
| BLQueue.ClaimsAreConsecutive | II year/concurrent-programming/non-blocking-queues/BLQueue.c:84-94 | Pops claim the slots of the chain one after the other without skipping an unclaimed one, and pushes are given slots in the same order |
| BLQueueSteps.FreedNodeIsDrained | II year/concurrent-programming/non-blocking-queues/HazardPointer.c:78-106 | A retired node that no slot protects holds no value any more, so freeing it loses nothing |
| BLQueueSteps.ScanPassesOwn | II year/concurrent-programming/non-blocking-queues/HazardPointer.c:82-87 | While the scan walks over the slots, no thread it has passed can be using the node it considers, although threads keep publishing |
| BLQueueSteps.PopSwingChain | II year/concurrent-programming/non-blocking-queues/BLQueue.c:150-156 | Swinging the head pointer keeps the chain of segments intact and takes the old head out of it |
| BLQueueSteps.PushLinkChain | II year/concurrent-programming/non-blocking-queues/BLQueue.c:105-109 | The late store of `next`, after the tail pointer has moved, joins exactly consecutive segments |
| BLQueue.StepEffect | II year/concurrent-programming/non-blocking-queues/BLQueue.c:77-161 | Each atomic step stores one new value in a slot never used before, or takes the value stored in a slot from which nothing has been taken, or leaves what has been stored and taken alone |
| BLQueue.CallOutcomes | II year/concurrent-programming/non-blocking-queues/BLQueue.c:77-174 | For values other than EMPTY and TAKEN, when a call returns: a push has stored its argument in one slot, and that is its only effect; a pop has taken exactly the value that it returns, or it returns EMPTY, has taken nothing, and has loaded a null `next` behind a segment whose slots have all been handed out; an emptiness test has changed no slot |
| BLQueue.NoOtherEffects | II year/concurrent-programming/non-blocking-queues/BLQueue.c:77-174 | A call that has not returned has had at most one effect, and a thread leaves a call only by returning |
| BLQueueProgress.ReturnsAlone | II year/concurrent-programming/non-blocking-queues/BLQueue.c:77-174 | From every reachable state, wherever a thread is in a call, the call comes to its return if the thread runs alone and `malloc` succeeds, whatever the others have left half done |
| BLQueueEmpty.SegmentsAreLinked | II year/concurrent-programming/non-blocking-queues/BLQueue.c:105-109 | In every reachable state each segment but the last points to its successor, or a push is just about to store that pointer |
| BLQueueEmpty.EmptyUnlessLinking | II year/concurrent-programming/non-blocking-queues/BLQueue.c:128-146 | When a pop loads a null `next`, after which it returns EMPTY, a stored value is left that no pop has been given exactly if some push is between moving the tail pointer and storing `next` of this segment |
| BLQueueEmpty.FalseEmpty | II year/concurrent-programming/non-blocking-queues/BLQueue.c:105-109 | A concrete run of three threads in which a pop that starts after a push has returned loads a null `next`, although values are stored and no pop has been given any of them |
| BLQueueEmpty.EmptyAnswerIsTrue | II year/concurrent-programming/non-blocking-queues/BLQueue.c:163-174 | An emptiness test that runs alone between calls answers yes only if every stored value has been taken |
| BLQueueEmpty.EmptyQueueDenied | II year/concurrent-programming/non-blocking-queues/BLQueue.c:163-174 | A concrete run in which nothing has ever been pushed and the emptiness test answers no, because a pop that found nothing has moved the counter of pops past the counter of pushes |
| BLQueueMemory.NothingLeaks | II year/concurrent-programming/non-blocking-queues/HazardPointer.c:63-108 | As long as allocations succeed, every node in memory is in the chain, or is being pushed, retired, or listed for freeing by exactly one thread |
| BLQueueMemory.NothingProtectedBetweenCalls | II year/concurrent-programming/non-blocking-queues/HazardPointer.c:56-61 | In every reachable state the slot of a thread that is in no call is empty, so it keeps no node from being freed |
| BLQueueMemory.ScanAlone | II year/concurrent-programming/non-blocking-queues/HazardPointer.c:78-106 | A scan that runs alone frees exactly those nodes, from where it stands on, that are published in no slot, and keeps the others in their order |
| BLQueueMemory.RetireAlone | II year/concurrent-programming/non-blocking-queues/HazardPointer.c:63-108 | Retiring a node, alone, puts it on the list; exactly if the list has got too long, all of its nodes are freed that are published in no slot |
| LLQueue.InvStep | II year/concurrent-programming/non-blocking-queues/LLQueue.c:70-139 | Each atomic step of push and pop keeps the chain of linked nodes and what every thread knows about it |
| LLQueue.PoppedThenContents | II year/concurrent-programming/non-blocking-queues/LLQueue.c:70-139 | In every interleaving the popped values followed by the contents are the values in the order of the link operations; the head never passes the tail, and the tail lags the last node by at most one |
| LLQueue.StepsOfAQueue | II year/concurrent-programming/non-blocking-queues/LLQueue.c:83-134 | Every atomic step is a step of an abstract queue: the successful link appends the argument of the push call and is its only effect, the successful head swing removes exactly the value the pop returns, and no other step changes the contents |
| LLQueue.CallOutcomes | II year/concurrent-programming/non-blocking-queues/LLQueue.c:70-139 | When a call returns: a push has appended its argument, once; a pop has removed the value that it returns from the front, once, or it returns EMPTY, has removed nothing, and the queue was empty at some moment of the call; so the queue is linearizable |
| LLQueue.NoOtherEffects | II year/concurrent-programming/non-blocking-queues/LLQueue.c:70-139 | A call that has not returned has had at most one effect, and a thread leaves a call only by returning |
| LLQueue.ReturnsAlone | II year/concurrent-programming/non-blocking-queues/LLQueue.c:70-139 | From every reachable state, wherever a thread is in a call, the call returns if the thread runs alone, because it helps a lagging tail along |
| LLQueue.NullLoadSeesEmpty | II year/concurrent-programming/non-blocking-queues/LLQueue.c:107-117 | The load that finds no successor is made, during the call, in a state in which the queue is empty |
| LLQueue.EmptyOnlyIfEmpty | II year/concurrent-programming/non-blocking-queues/LLQueue.c:107-117 | A pop returns EMPTY only if the queue was empty at some moment inside that call |
| LLQueue.LastNode | II year/concurrent-programming/non-blocking-queues/LLQueue.c:79-92 | A linked node without successor is the last node of the chain |
| RingsQueue.RunInv | II year/concurrent-programming/non-blocking-queues/RingsQueue.c:76-135 | In every interleaving of pushers and poppers every access goes to an allocated ring, although drained rings are freed and their addresses handed out again |
| RingsQueueSteps.InvStep | II year/concurrent-programming/non-blocking-queues/RingsQueue.c:76-135 | Each atomic step keeps the chain of rings, the two locks and what their holders know |
| RingsQueue.PoppedThenContents | II year/concurrent-programming/non-blocking-queues/RingsQueue.c:76-135 | Dequeued values followed by what the rings contain are the enqueued values in order |
| RingsQueue.StepsOfAQueue | II year/concurrent-programming/non-blocking-queues/RingsQueue.c:84-130 | Every atomic step is a step of an abstract first-in-first-out queue, with the effect at the counter increment or at the store of `next` |
| RingsQueue.CallOutcomes | II year/concurrent-programming/non-blocking-queues/RingsQueue.c:76-135 | When a call gets to its unlock: a push has appended its argument, once; a pop has removed the value that it returns from the front, once, or it returns EMPTY, has removed nothing, and the queue was empty at some moment of the call |
| RingsQueue.NoOtherEffects | II year/concurrent-programming/non-blocking-queues/RingsQueue.c:76-135 | A call that has not returned has had at most one effect, and a thread leaves a call only by releasing its lock |
| RingsQueue.OnlyUsedRingsAreFollowed | II year/concurrent-programming/non-blocking-queues/RingsQueue.c:84-97 | In every reachable state a ring has a successor only if every one of its slots has been used |
| RingsQueue.ReturnsAlone | II year/concurrent-programming/non-blocking-queues/RingsQueue.c:76-135 | From every reachable state a call returns if its thread runs alone, unless another thread holds the lock that it waits for |
| RingsQueue.NoDeadlock | II year/concurrent-programming/non-blocking-queues/RingsQueue.c:76-135 | As long as a thread is in a call, that thread, or the one that holds the lock it waits for, returns if it runs alone |
| RingsQueue.NoOverwrite | II year/concurrent-programming/non-blocking-queues/RingsQueue.c:81-87 | The slot a push writes is none of the unread slots and not the slot a concurrent pop reads, although the push compared a stale `pop_idx` |
| RingsQueue.EmptyOnlyIfEmpty | II year/concurrent-programming/non-blocking-queues/RingsQueue.c:110-119 | A pop returns EMPTY only if the queue was empty when it loaded `next`, during that call |
| RingsQueue.ContentsArePending | II year/concurrent-programming/non-blocking-queues/RingsQueue.c:84-97 | Reading the rings from any node on with the modular indices gives a suffix of the enqueued values |
| MimpiTree.Remainders | II year/concurrent-programming/MIMPI/mimpi.c:439-449 | The rotated ranks of the model are the remainders that the source computes |
| MimpiTree.ParentIffChild | II year/concurrent-programming/MIMPI/mimpi.c:439-449 | Parent and child formulas are inverse for every world size and root: each rank but the root is a child of exactly its parent, on one side |
| MimpiTree.Unrotated | II year/concurrent-programming/MIMPI/mimpi.c:388-390 | With root 0 the rotated formulas are those that the barrier uses on the ranks themselves |
| MimpiCollectives.EveryCallAnswers | II year/concurrent-programming/MIMPI/mimpi.c:432-572 | For any sequence of barriers, broadcasts and reductions, in any mixture and from arbitrary roots, in every interleaving in which no receive has taken a barrier flag for data: the k-th call of each process, if a broadcast, ends with the data of its root; the k-th call of the root of a reduction ends, byte by byte, with the integer sum or product of the bytes of all ranks modulo 256, or with a byte of theirs that none exceeds, or that exceeds none |
| MimpiCollectives.BarrierSeparates | II year/concurrent-programming/MIMPI/mimpi.c:387-430 | No process returns from a barrier before all have entered it, whatever calls come before, between and after the barriers |
| MimpiCollectives.NoSignalIsLost | II year/concurrent-programming/MIMPI/mimpi.c:87-93 | At most one barrier signal is on its way from one process to another, so no flag is set while it is still set |
| MimpiCollectives.HeadMatches | II year/concurrent-programming/MIMPI/mimpi.c:329-362 | The message that the matching loop picks is the oldest one of its sender and belongs to the current call, although messages of later calls, with any sizes, may be waiting behind it |
| MimpiCollectives.FirstMatch | II year/concurrent-programming/MIMPI/mimpi.c:329-362 | The matching loop finds the oldest message of the right size and tag, where the tag 0 stands for every tag that programs use |
| MimpiCollectives.FlagMatches | II year/concurrent-programming/MIMPI/mimpi.c:324-328 | The flag that a receive of a barrier finds is the signal of this very barrier |
| MimpiCollectives.StepInv | II year/concurrent-programming/MIMPI/mimpi.c:324-572 | Each step keeps every pipe, list and flag equal to what has been sent and not yet received, in order, and every process at what it has merged so far |
| MimpiCollectives.CollectivesMakeProgress | II year/concurrent-programming/MIMPI/mimpi.c:387-572 | As long as a process has calls left, some process or receiver can take a step; once all processes have entered a call that it has not completed, one inside that call or a receiver can |
| MimpiFlags.StolenIffUnsafe | II year/concurrent-programming/MIMPI/mimpi.c:324-328 | A receive of broadcast or reduction data takes the flag of a later barrier in some run exactly when the sequence of calls is not `Safe`, a condition on the program alone: for some data sent to a parent of the barrier tree, the sender need not have heard, from or over the receiver, that it has arrived before it signals in a later barrier |
| MimpiFlags.KnowledgeIsTrue | II year/concurrent-programming/MIMPI/mimpi.c:324-362 | Whenever a process has got to a position at which it must know of a receipt, the receipt has taken place |
| MimpiFlags.SafeRuns | II year/concurrent-programming/MIMPI/mimpi.c:324-328 | In no run of a safe program does a receive of data take a barrier flag |
| MimpiFlags.SafeProgramsWork | II year/concurrent-programming/MIMPI/mimpi.c:387-572 | In every run of a safe program every completed call has the right result, and as long as calls are left somebody can move |
| MimpiFlags.Reach | II year/concurrent-programming/MIMPI/mimpi.c:324-572 | From every state before the receipt any process can be brought, leaving the receipt alone, to any position at which it need not know of the receipt |
| MimpiFlags.UnsafeRun | II year/concurrent-programming/MIMPI/mimpi.c:324-328 | For every unsafe program and pair of calls there is a schedule that ends with the flag taken for the data |
| MimpiFlags.GuardedBarriersAreSafe | II year/concurrent-programming/MIMPI/mimpi.c:387-473 | Programs are safe in which each barrier is the first call or directly follows a barrier or a broadcast from process 0 |
| MimpiFlags.ReductionThenBarrier | II year/concurrent-programming/MIMPI/mimpi.c:387-572 | With two or more processes, a reduction to process 0 directly followed by a barrier has a run in which the barrier flag is taken for the data |
| MimpiFlags.SumThenBarrier | II year/concurrent-programming/MIMPI/mimpi.c:387-572 | A concrete program: two processes add one byte each and then call a barrier |
| MimpiReduce.CombineInto | II year/concurrent-programming/MIMPI/mimpi.c:514-533 | The loop over the buffer leaves in each position the sum or product modulo 256, the maximum or the minimum of the own and the received byte |
| MimpiReduce.FoldAmounts | II year/concurrent-programming/MIMPI/mimpi.c:514-533 | Folding a column of bytes gives its integer sum or product modulo 256, its maximum or its minimum |
| MimpiReduce.TreeIsFold | II year/concurrent-programming/MIMPI/mimpi.c:505-560 | Merging a node with its left and then its right subtree, from the leaves to the root of the heap, gives the fold over all values, each counted once |
| MimpiReduce.FoldRotation | II year/concurrent-programming/MIMPI/mimpi.c:484-494 | Rotating the ranks does not change the fold |
| MimpiReduce.WholeTree | II year/concurrent-programming/MIMPI/mimpi.c:475-572 | For every world size, root and count, what is merged along the rotated tree is, at the root, the fold over the bytes of all ranks |
| MimpiReduce.MergedChildren | II year/concurrent-programming/MIMPI/mimpi.c:505-560 | What a process has after merging what its left and then its right child send is the merge over its whole subtree |
| MimpiReduce.Associative | II year/concurrent-programming/MIMPI/mimpi.c:515-532 | The four byte operations are associative, including the two that wrap around |
| Combinators.RStepStopsIffNormal | III year/functional-programming/project1.hs:36-46 | `rstep` returns Nothing exactly when no redex remains anywhere in the expression |
| Combinators.RStepIsLeftmostOutermost | III year/functional-programming/project1.hs:36-46 | `rstep` returns an expression exactly if it results from contracting the redex that precedes all others, where outside comes before inside and the function before the argument |
| Combinators.Triangle | III year/functional-programming/project1.hs:36-46 | Whatever set of redexes a parallel step contracts, the full development can still be reached in one parallel step |
| Combinators.Confluence | III year/functional-programming/project1.hs:36-46 | Two expressions reachable from a common one, in any reduction orders, reach a common expression |
| Combinators.RPathFindsTheNormalForm | III year/functional-programming/project1.hs:49-54 | If the list of `rpath` is finite, its last element is the only normal form that any reduction order can reach |
| Combinators.Factor | III year/functional-programming/project1.hs:36-46 | A parallel step is a sequence of head steps followed by a parallel step that contracts no head redex |
| Combinators.Standardize | III year/functional-programming/project1.hs:36-54 | Any reduction can be rearranged into head steps followed by steps below the head |
| Combinators.RPathReaches | III year/functional-programming/project1.hs:36-54 | The leftmost-outermost sequence ends in the normal form, if any reduction order reaches one |
| Combinators.RPathNormalizes | III year/functional-programming/project1.hs:49-54 | The list of `rpath` is finite exactly when some reduction order reaches a normal form from the expression, and then it ends there |
| Udpr.RunInv | II year/computer-networks/project1/src/client_udpr.c:72-242 | With a network that loses, duplicates and reorders datagrams, client, network and server keep the relation between printed bytes, packet numbers and acknowledgements |
| Udpr.SessionsPrintPrefixes | II year/computer-networks/project1/src/server_udpr.c:19-251 | Each server session prints a prefix of the client's data, packet by packet in order and each packet once |
| Udpr.SuccessMeansPrinted | II year/computer-networks/project1/src/server_udp_udpr.c:81-103 | RCVD is sent only after all data has been printed, and the client leaves its send loop successfully only if all data has been printed |
| Udpr.PrintedTwiceIffFirstAcceptedTwice | II year/computer-networks/project1/src/server_udp_udpr.c:43-60 | A packet is printed twice exactly when the run has two moments at which the server, waiting for the first packet of a session, gets a datagram that passes its checks |
| Udpr.OneSessionPrintsOnce | II year/computer-networks/project1/src/server_udp_udpr.c:43-60 | As long as at most one CONN finds the server listening, no packet is printed twice |
| Udpr.OneConnPrintsOnce | II year/computer-networks/project1/src/server_udp_udpr.c:43-60 | If the network delivers at most one CONN to the server, no packet is printed twice |
| Udpr.DuplicatedConnPrintsTwice | II year/computer-networks/project1/src/server_udp_udpr.c:43-60 | A concrete exchange in which a duplicated CONN starts a second session that prints the data again |
| Udpr.TransferSucceedsIff | II year/computer-networks/project1/src/client_udpr.c:72-242 | Over a network that loses the first copies of each datagram of the client, in equal number, and delivers everything else once, the transfer of any non-empty data succeeds exactly up to MAX_RETRANSMITS losses; then one session has printed all data, each packet once and in order, and the server listens again |
| Udpr.SuccessIsPossibleIff | II year/computer-networks/project1/src/client_udpr.c:185-242 | Some run lets the client succeed exactly if it has something to send |
| Udpr.AfterSilence | II year/computer-networks/project1/src/server_udpr.c:192-251 | A server that waits for a packet stays in the session for exactly MAX_RETRANSMITS timeouts, then listens for a CONN again, and its output stays |
| Udpr.ClientVerdict | II year/computer-networks/project1/src/client_udpr.c:19-183 | Of the datagrams that can arrive in some run, only a rejection, a repeated CONACC after the first packet, and an RCVD that overtakes the last ACC make the client give up, the last only when all data has been printed; the awaited answer takes it to the next packet, and anything else is ignored |
| Udpr.ServerVerdict | II year/computer-networks/project1/src/server_udpr.c:66-137 | Of the datagrams that can arrive in some run, a waiting server prints exactly the expected packet; it rejects exactly a CONN after the first packet, a packet ahead of the expected one, and a packet behind it if the expected one is shorter than a full packet; anything else is ignored |
| Udpr.RejectionIsPossibleIff | II year/computer-networks/project1/src/server_udpr.c:109-127 | If the network delivers at most one CONN, a rejection can occur exactly if there are several packets and the last one is not full |
| Udpr.FailureAfterPrinting | II year/computer-networks/project1/src/client_udpr.c:147-160 | For all non-empty data there is a run without timeouts in which everything is printed and the client fails |
| SameGame.UsunGrupe | I year/intro-to-programming/SameGame.c:61-75 | On a board of any size the recursion ends and has cleared exactly the 4-connected group of equal tiles of the start cell, leaving every other cell as it was |
| SameGame.FourNeighbours | I year/intro-to-programming/SameGame.c:63-74 | Clearing a tile and then what is left of the groups of its four neighbours, one after the other, clears the group of the tile |
| SameGame.GroupOfOne | I year/intro-to-programming/SameGame.c:49-53 | A group is a single tile exactly when no neighbour has the colour of the tile |
| SameGame.SprawdzCzyGrupa | I year/intro-to-programming/SameGame.c:49-59 | Tells whether the group of a tile is more than the tile itself |
| SameGame.PrzesunKolumne | I year/intro-to-programming/SameGame.c:85-95 | In one column the tiles fall and keep their order; the other columns do not change |
| SameGame.PrzesunWDol | I year/intro-to-programming/SameGame.c:83-97 | The same for all columns |
| SameGame.PrzesunWLewo | I year/intro-to-programming/SameGame.c:99-114 | On a board whose tiles have fallen, the non-empty columns move to the left and keep their order |
| SameGame.NoGapsIsCompact | I year/intro-to-programming/SameGame.c:83-114 | A sequence without gaps and with the same remaining elements is the compacted sequence |
| SameGame.TidiedHasNoGaps | I year/intro-to-programming/SameGame.c:116-119 | After both shifts no gap is left below a tile, no empty column is left of a non-empty one, and tiles and columns keep their order |
| SameGame.Wykonaj | I year/intro-to-programming/SameGame.c:121-139 | A move on an empty field or a lone tile changes nothing; any other move removes the group and closes the gaps |
| GameOfLife.MartwySasiad | I year/intro-to-programming/GameOfLife.c:178-189 | Of two or more cells, one that is not the last of the list has a dead neighbour |
| GameOfLife.JestKandydat | I year/intro-to-programming/GameOfLife.c:178-200 | When the last of two or more original cells is visited, a candidate has been appended already, so the second loop starts there |
| GameOfLife.Lista.ZliczanieZywychSasiadow | I year/intro-to-programming/GameOfLife.c:78-97 | Counts the live neighbours on the grid, ignoring the candidates |
| GameOfLife.Lista.UsunZyweKomorki | I year/intro-to-programming/GameOfLife.c:122-144 | The in-place pass is the element-wise filter that keeps cells with two or three live neighbours and promotes the surviving candidates |
| GameOfLife.Lista.UsunWszystkieWskazane | I year/intro-to-programming/GameOfLife.c:146-162 | The in-place pass removes every element with the given coordinates |
| GameOfLife.Lista.DopiszBlok | I year/intro-to-programming/GameOfLife.c:182-189 | The missing cells of the 3x3 block are appended, and nothing else |
| GameOfLife.Lista.PierwszaPetla | I year/intro-to-programming/GameOfLife.c:174-199 | After the first loop the original cells know their live neighbours, exactly their dead neighbours have been appended, and the cursor is on the first of these, or past the end if there was a single cell |
| GameOfLife.Lista.DrugaPetla | I year/intro-to-programming/GameOfLife.c:200-212 | The second loop keeps exactly the candidates with three live neighbours |
| GameOfLife.NastepnePokolenie | I year/intro-to-programming/GameOfLife.c:174-214 | What the two loops leave is the next generation on the unbounded grid |
| GameOfLife.Samotna | I year/intro-to-programming/GameOfLife.c:174-214 | For a single live cell the result is its eight neighbours, which is not the next generation |
| GameOfLife.Lista.NowaGeneracjaLista | I year/intro-to-programming/GameOfLife.c:174-214 | On a list of different live cells, the result is again without repetitions, and it is the next generation exactly when the list did not hold exactly one cell |
| Poset.ExtendedIsClosure | II year/cpp-course/project2/poset.cc:179-216 | After `poset_add` two elements are related exactly if a path of old pairs and the new pair connects them |
| Poset.DropKeepsOrderIff | II year/cpp-course/project2/poset.cc:80-100 | Dropping one pair leaves a partial order exactly when no third element lies between the two |
| Poset.PosetData.AddTransitivityRelations | II year/cpp-course/project2/poset.cc:179-216 | The single pass over the matrix, which reads what it has already changed, closes the relation under the new pair |
| Poset.PosetData.SomethingIsBetweenTwoElem | II year/cpp-course/project2/poset.cc:80-100 | Finds whether some element lies strictly between two |
| Poset.PosetData.Add | II year/cpp-course/project2/poset.cc:767-845 | Succeeds exactly for two known and unrelated elements, and then makes the least extension |
| Poset.PosetData.Del | II year/cpp-course/project2/poset.cc:855-926 | Succeeds exactly when the first strictly precedes the second and dropping the pair alone leaves a partial order, and then drops just that pair |
| Poset.PosetData.Insert | II year/cpp-course/project2/poset.cc:620-675 | A new name is related to itself only; a known name changes nothing; the matrix stays square and matched to the names |
| Poset.PosetData.Remove | II year/cpp-course/project2/poset.cc:683-757 | Removes the name and all its pairs and no other pair, although relation codes are rewritten on the way |
| Poset.PosetData.Test | II year/cpp-course/project2/poset.cc:933-994 | Answers whether the first name precedes the second |
| Poset.AllPosets.New | II year/cpp-course/project2/poset.cc:512-545 | The identifier returned is not in use: the one deleted longest ago, or else one never given out |
| Poset.AllPosets.Delete | II year/cpp-course/project2/poset.cc:552-580 | The identifier becomes free and no other poset changes |
| Poset.AllPosets.DelThenAdd | II year/cpp-course/project2/poset.cc:767-926 | After a successful `poset_del`, `poset_add` of the same pair succeeds and the poset is as before |
| SeqTrie.Seq.SeqWalk | I year/computer-architecture-and-operating-systems/project1/seq.c:91-137 | Ends at the longest stored prefix, with the results for its three kinds of callers |
| SeqTrie.Seq.SeqAdd | I year/computer-architecture-and-operating-systems/project1/seq.c:173-224 | Adds exactly the prefixes of the sequence, without classes; it fails for lack of memory exactly if an allocation of the call has failed, and memory is then exactly as before the call |
| SeqTrie.Seq.SeqAddPath | I year/computer-architecture-and-operating-systems/project1/seq.c:188-221 | The loop adds the missing prefixes one by one; exactly if an allocation fails, it stops, and the clean-up undoes all of them |
| SeqTrie.TakenBack | I year/computer-architecture-and-operating-systems/project1/seq.c:190-208 | Freeing the new branch and resetting one child pointer restores the memory from before the call |
| SeqTrie.Seq.SeqRemove | I year/computer-architecture-and-operating-systems/project1/seq.c:247-289 | Removes exactly the extensions of the sequence; the classes of the remaining sequences and their names do not change |
| SeqTrie.Seq.SeqClassRemove | I year/computer-architecture-and-operating-systems/project1/seq.c:226-245 | Frees every node of a branch and every class that only the branch used, touching no freed memory |
| SeqTrie.LetGo | I year/computer-architecture-and-operating-systems/project1/seq.c:228-241 | When a node lets go of its class, counters again equal the numbers of nodes, and a class disappears with its last node |
| SeqTrie.Seq.SeqDelete | I year/computer-architecture-and-operating-systems/project1/seq.c:49-72 | Deleting the set leaves no node and no class in memory |
| SeqTrie.Seq.SeqValid | I year/computer-architecture-and-operating-systems/project1/seq.c:291-302 | Tells whether the sequence is in the set |
| SeqTrie.Seq.SeqSetName | I year/computer-architecture-and-operating-systems/project1/seq.c:304-347 | Names exactly the class of the sequence, or gives it one of its own; nothing changes exactly if the sequence is missing or has the name already, or if an allocation of the call has failed |
| SeqTrie.Seq.SeqGetName | I year/computer-architecture-and-operating-systems/project1/seq.c:349-367 | The name of the class of the sequence, if it has a non-empty one |
| SeqTrie.Seq.ClassChange | I year/computer-architecture-and-operating-systems/project1/seq.c:369-381 | Moves exactly the nodes of one class to another and keeps the counter of the latter exact |
| SeqTrie.Seq.SeqEquiv | I year/computer-architecture-and-operating-systems/project1/seq.c:383-481 | Merges exactly the two classes named, with the joined name, and leaves all other classes alone; it changes nothing exactly for bad, equal, missing or already equivalent sequences, or if an allocation of the call has failed, which cannot happen if exactly one of them has a class |
| SeqTrie.GrowTrie | I year/computer-architecture-and-operating-systems/project1/seq.c:139-162 | A new child keeps the memory a prefix-closed trie without stray nodes |
| SeqTrie.CutTrie | I year/computer-architecture-and-operating-systems/project1/seq.c:264-286 | Cutting off a branch keeps the memory a prefix-closed trie without stray nodes |
| Regex.SimplSound | III year/ocaml/SimpleRegexp/simpleRegexp.ml:5-19 | Simplification keeps the language |
| Regex.SimplShrinks | III year/ocaml/SimpleRegexp/simpleRegexp.ml:5-19 | Simplification makes an expression smaller if a union has the empty language as an operand or a concatenation that or the empty word, anywhere, and leaves all others alone |
| Regex.NullableSound | III year/ocaml/SimpleRegexp/simpleRegexp.ml:21-28 | `nullable` holds exactly when the empty word is in the language |
| Regex.DerSound | III year/ocaml/SimpleRegexp/simpleRegexp.ml:39-52 | The derivative by a letter has exactly the words that follow the letter |
| Regex.AcceptIffInLanguage | III year/ocaml/SimpleRegexp/simpleRegexp.ml:54-60 | `accept r w` holds exactly when w is in the language of r, although every intermediate derivative is simplified |
| Regex.IsEmptyIffNoWord | III year/ocaml/SimpleRegexp/simpleRegexp.ml:30-37 | `empty r` holds exactly when the language of r has no word |
| RegexSyntax.ParseOfRepr | III year/ocaml/SimpleRegexp/parser.mly:7-30 | For regular expressions over letters and digits the grammar with its precedences accepts what `repr` prints and returns the re-associated expression |
| RegexSyntax.ParsesExactly | III year/ocaml/SimpleRegexp/parser.mly:5-30 | For every sequence of tokens and every expression: the shift-reduce parser returns the expression exactly if an unambiguous grammar, in which stars bind tightest, then juxtaposition to the right, then concatenation signs to the left, then unions to the left, reads the tokens as that expression |
| RegexSyntax.ReassociateSound | III year/ocaml/SimpleRegexp/parser.mly:26-30 | Re-associating unions to the left and concatenations to the right keeps the language |
| RegexSyntax.RoundTrip | III year/ocaml/SimpleRegexp/simpleRegexp.ml:62-92 | Parsing what `repr` prints succeeds and gives an expression with the same language |
| RegexSyntax.PrintsTheSame | III year/ocaml/SimpleRegexp/simpleRegexp.ml:62-92 | The parsed expression prints as the original one, so that printing and parsing are stable after one round |
| RegexSyntax.LexRepr | III year/ocaml/SimpleRegexp/lexer.mll:5-19 | The printed form is read back as the intended tokens |
| RegexSyntax.LexSymbols | III year/ocaml/SimpleRegexp/lexer.mll:5-19 | The tokens of all strings of one character, with the symbols written out |
| RegexSyntax.WhiteSpaceIsIgnored | III year/ocaml/SimpleRegexp/lexer.mll:10-10 | Blanks, tabs and line ends anywhere make no difference to what is parsed |
| RegexSyntax.OtherCharactersAreRefused | III year/ocaml/SimpleRegexp/lexer.mll:11-19 | A string with any character but letters, digits, white space and the six symbols is refused |
| RegexSyntax.ParenthesesByStrength | III year/ocaml/SimpleRegexp/simpleRegexp.ml:62-76 | An operand is printed in parentheses exactly if it binds less tightly than its operator, or is a star under a star |
| Seam.ArgMin | III year/robot-control/project1/stitch.py:462-472 | The first index of a least element, where infinity stands for a missing neighbour |
| Seam.LeastIsLowerBound | III year/robot-control/project1/stitch.py:448-459 | No connected path to a cell costs less than the entry of the table |
| Seam.Fill | III year/robot-control/project1/stitch.py:448-459 | The nested loops fill the table with the least costs |
| Seam.WalkUp | III year/robot-control/project1/stitch.py:461-476 | Following the table upwards gives a connected seam that costs what the table says |
| Seam.FindOptimalSeam | III year/robot-control/project1/stitch.py:448-476 | For every non-empty matrix the seam is a connected path from top to bottom, and no such path costs less |

## Left out

- All concurrent cores (queues, MIMPI, UDPR) are state machines over values, one atomic operation a step, rather than classes with methods: interleaving needs steps that other threads can come between. Sequential consistency is assumed; weak memory ordering and wrap-around of the atomic counters are not modelled.
- BLQueue.CallOutcomes: does not say that the queue is empty when a pop returns EMPTY, because it need not be: BLQueueEmpty.EmptyUnlessLinking says exactly when it is not, and BLQueueEmpty.FalseEmpty is a run in which it is not.
- BLQueue: the retired counter is the length of the retired list; deleting the queue is not modelled. Calls are shown to return when they run alone, not under contention, under which a compare-and-swap loop can go on for ever.
- BLQueue.Conservation: does not cover values equal to EMPTY_VALUE or TAKEN_VALUE, which the queue reserves.
- LLQueue: addresses are never reused and nodes never freed, because its one hazard slot is overwritten (LLQueue.c:121); reclamation is proved on BLQueue. A failed allocation in push and the separate emptiness test are not modelled.
- RingsQueue: a failed allocation in push (a retry in the model) and the separate emptiness test are not modelled.
- SimpleQueue is not modelled; it is RingsQueue without rings: one value a node, the same two locks, the old dummy freed.
- MIMPI: deadlock detection, `MIMPI_Finalize`, the result REMOTE_FINISHED, point-to-point traffic, and splitting of messages in pipes are not modelled.
- MimpiCollectives.EveryCallAnswers: says nothing about runs in which a receive has taken a flag for data, because what it then returns is uninitialised memory; the model ends the run there. MimpiFlags.StolenIffUnsafe says which programs have such runs.
- Udpr: timing, other clients, failing socket calls and malformed datagrams are not modelled; the server prints with `%s`, so payloads contain no NUL byte. Liveness is claimed for the runs of Udpr.TransferSucceedsIff only.
- Udpr.SessionsPrintPrefixes: says "once" per session, because a duplicated CONN starts a second session (Udpr.DuplicatedConnPrintsTwice).
- Combinators: pretty printing and the limit of 30 printed steps are not modelled.
- Regex: the character type is arbitrary; the converters from and to strings and the remaining helpers of simpleRegexp.ml are not modelled.
- RegexSyntax: the symbols for the empty word and the empty language are single characters, not UTF-8 byte sequences.
- SameGame: reading and printing the board are not modelled.
- GameOfLife: reading, sorting and drawing are not modelled; the list is a sequence in a field with the cursor as an index, so node addresses are not captured.
- Poset: diagnostics on the error stream are not modelled; matrix and name vector are sequences in fields, and the meaning of the two relation codes beyond "related" is not used by any operation.
- SeqTrie: addresses are explicit, but several sets in one memory, `errno` beyond the two error results and the ownership of name strings are not modelled; the string of the second class that `seq_equiv` forgets to free when both names are equal (seq.c:437-447) is therefore not visible. The field `w` of a node is never read and left out.
- SeqTrie.Seq.constructor: models only the successful `seq_new`.
- Seam: costs are exact real numbers; rounding to 32-bit floats is not modelled.
- The remaining projects of the repository (other assignments, user interfaces, network transfers without retransmission, robot control) are not modelled.
