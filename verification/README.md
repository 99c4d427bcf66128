# Proofs about the LitL user-space locks

A Dafny model of the locks in `litl/src` that reorder their waiters (uta, utafts, uxpick, cspick,
uxshfl), of the plain queue and ticket locks beside them (mcs, ticket), and of the test-and-set lock
over the futex waiting policies (spinlock, waiting_policy.h). `dafny verify dfyconfig.toml` checks
everything.

## What is modelled

**The two-queue release.** Four locks share one release path. Waiters join a list by exchanging
`tail`. The holder scans that list for a favoured waiter, splices the waiters it skipped onto a
secondary list whose head travels in the grant word, and sometimes puts the secondary list back in
front. Nothing in the code says why this is safe; the reason is that *the secondary list followed by
the main list is always the arrival order of the unserved waiters*, and a handoff only takes one
waiter out of it. It is proved at three levels:

- `TwoQueue` is the discipline on sequences, for any choice of the next holder. `Uta`, `PickLock`
  and `Fts` add the choices of uta.c, of uxpick.c and cspick.c, and of utafts.c, one release a step:
  exact starvation bounds, who may overtake whom, and ledgers over whole runs.
- `QueueHeap`, `UtaHeap`, `PickHeap` and `FtsHeap` are the same code on heap nodes: classes whose
  methods follow the source branch by branch (compare-and-swap of `tail`, scan loop, both splices,
  flush) and are proved equal to the step of the level above.
- `FineLock` runs any number of threads through lock and unlock one memory access at a time, under
  sequential consistency, with any policy for whom to grant. `FineLockProof` relates every memory to
  a state of `TwoQueue`; `FineLockTheorems` states what follows on the memory alone;
  `UtaInterleaved` restricts the machine to the choices of uta.c and carries the theorems of `Uta`
  over to every interleaving, `UxInterleaved` and `CsInterleaved` do so for the order of service of
  uxpick.c and cspick.c, and `FineLockProgress` bounds the steps to the next decision. `SpinWord`
  adds the packed 64-bit word.

**uxshfl.c.** `Shuffle` is the loop that relinks a live list, with every exit and with threads that
link themselves while it runs, proved to leave the stable partition of what it visited and a next
leader that can go on from there. `ShflQueue` is the lock around it, as interleaved steps: the byte
anybody may take, the queue in front of it, and waiting threads that move others up behind them.
`ShflLeaders` decides who may: it runs the calls of shuffle_waiters step by step among the others,
with what each leader remembers. `ShflTheorems` and `ShflProgress` state what follows for whole runs,
`ShflSteps` what single steps of them do, and `ShflWitness` holds two executions in which the code
goes wrong.

**The parking locks.** `WaitingPolicy` is the way a thread waits; `Spinlock` and `Mcs` interleave
threads that use it, with kernel wake-ups that are late, stale or spurious.

**The ticket lock** (`Ticket`), with 32-bit counters that wrap, and **the length prediction of
uta.c** (`Predict`): location stack, shared start times, and the running average.

### How the parts of the source appear

- The packed word `spin` appears as two parts, a batch and a head (`Word` in `FineLock`, the fields
  `count` and `head` of a heap node); `SpinWord` shows that nothing is lost by packing them.
- A clock or cycle counter is an input: the time of an event in `Predict`, the length of a critical
  section in `Fts`.
- The delay of threads without priority (uta.c:226-242, utafts.c:196-212) is the freedom of a thread
  to join at any time.
- In the interleaved machines threads are numbers, and a node belongs to the thread that brought it.

### What turned out not to hold

- **uxpick.c and cspick.c lose their priority under load.** A release at the batch limit with an
  empty secondary list does not reset the batch (uxpick.c:231-237, cspick.c:249-255). From then on,
  until the lock becomes empty, both locks are first come, first served
  (`PickLock.ExhaustedIsFifo`), and a run of ux threads, or of short sections, alone gets there
  (`PickLock.UxReachesExhaustion`, `PickLock.CsReachesExhaustion`). With a favoured waiter in sight
  one is served exactly when the batch is below the limit or the oldest waiter is favoured too
  (`PickLock.UxIsServedIff`, `PickLock.ShortIsServedIff`).
- **cspick.c can pass over a shorter section.** With no short waiter in sight, the minimum is taken
  over the waiters behind the head only (cspick.c:161-187). The head can lose to a longer one
  (`PickLock.HeadCanLoseToALongerSection`), and so can an older waiter of the secondary queue
  (`PickLock.SecCanLoseToALongerSection`, a run). `PickLock.PassesOnlyLongerIff` is the exact
  condition: a short waiter is in sight, or one behind the head is shorter than the head and than the
  whole secondary queue.
- **The shuffle can lose a waiter when its leader is not a ux thread.** A leader that is not a ux
  thread, has visited nobody, and finds a ux thread with a successor right behind it, links that
  thread to itself and drops it from the list (`Shuffle.UnsafeStart`). Four threads get there from an
  unused lock: at the end the queue is empty and one of them still waits
  (`ShflWitness.AThreadIsLost`). As long as no turn begins like that (`ShflTheorems.BadIff`) shuffling
  is safe in every interleaving (`ShflTheorems.ShufflingIsSafe`). From every other start a call below
  the limit of 50 is correct, and the start it hands over is safe for the list as it is then. It stays
  safe whoever comes exactly when the leader to come is a ux thread, or has visited somebody, or has a
  thread linked behind it that is not a ux thread (`Shuffle.ShuffleWaiters`, `Shuffle.SafeForAllIff`):
  a leader without these can turn bad by arrivals alone. At the limit the next in line starts from
  scratch, under the same condition.
- **uxshfl.c may let newcomers steal the lock from a queue in use.** A thread that empties the queue
  enables stealing afterwards (uxshfl.c:446-448); in between, the next thread may have found the queue
  empty and disabled it. As long as no turn goes wrong `ShflTheorems.StealingIffRaced` is the
  exact condition, and `ShflWitness.StealingComesBack` is an execution of three threads. Mutual
  exclusion is not affected, by this or by a turn that goes wrong (`ShflTheorems.MutualExclusion`), nor
  is the order of the queue while no turn goes wrong (`ShflTheorems.ServedInClassOrder`).
- **A nested section at the same location spoils the measurement of the outer one**, because the
  start time is kept by location (uta.c:45, 262, 295). `Predict.OwnDurationIff` is the exact
  condition. `uta_mutex_lock` always passes location 0, so there every nesting is affected.

## Model

| member | source | states |
|---|---|---|
| TwoQueue.HandoffRemovesOne | litl/src/uta.c:145-202 | A handoff, whether it picks main[j] and moves main[0..j) to the secondary queue or flushes, takes exactly the granted waiter out of sec + main and keeps everyone else in order |
| TwoQueue.PicksFromTheFrontKeepSec | litl/src/uta.c:147-202 | The secondary queue is unchanged exactly by a pick of the head or a flush of an empty one; a pick only ever extends it |
| TwoQueue.PositionAfter | litl/src/uta.c:145-202 | Where each waiter that is not granted stands afterwards: one place nearer the front when the granted one was before it, else where it was |
| TwoQueue.StepSpendsBudget | litl/src/uta.c:145-202 | For any policy under a batch limit, a step never moves a waiter back and every handoff that does not serve it lowers its budget k*(cap+1-restart)+(cap+1-batch) |
| TwoQueue.BoundedBypass | litl/src/uta.c:145-202 | Any run under a batch limit serves a waiter within its budget of handoffs, or makes fewer handoffs than that |
| TwoQueue.NoStarvation | litl/src/uta.c:145-202 | The same bound from any state of the run on, for any policy, limit and restart value |
| TwoQueue.BudgetIsReached | litl/src/uta.c:145-202 | No smaller bound holds for the discipline: from any state newcomers can keep its last waiter out for exactly the budget of handoffs, if the policy is free |
| Uta.FirstShortIs | litl/src/uta.c:147-168 | The scan result is characterised without the scan: the one short waiter with only long ones before it |
| Uta.ReleaseServes | litl/src/uta.c:107-205 | Below batch 1000 a release that sees a short waiter serves the first one: the batch rises by one and exactly those before it join the secondary queue. In every other case it serves the oldest of both queues, leaves one queue in arrival order and restarts the batch at 1; with nobody queued it frees the lock |
| Uta.NewcomerIsLast | litl/src/uta.c:208-223 | A newcomer gets a free lock with batch 0, and else stands last; nothing else changes |
| Uta.StepIsBounded | litl/src/uta.c:107-223 | Every lock and unlock of uta.c is a step of the bounded discipline with limit 1000 and restart 1, whatever the scan finds |
| Uta.RunKeepsInv | litl/src/uta.c:145-202 | In every reachable state every waiter of the secondary queue is at least as long as the current threshold, although the threshold moves |
| Uta.OvertakersAreShorter | litl/src/uta.c:147-202 | A granted waiter is strictly shorter than every older waiter it passes, those in the secondary queue included |
| Uta.ThresholdRisesIffMiss | litl/src/uta.c:181-202 | A release raises the threshold exactly when the batch allowed a scan that saw somebody and nobody short; that release serves the oldest, empties the secondary queue and restarts the batch |
| Uta.EventMovesThreshold | litl/src/uta.c:169-187 | Over arrivals and releases the threshold rises exactly with a miss and falls exactly with the hundredth pick of a batch, each time by one |
| Uta.NoStarvation | litl/src/uta.c:145-202 | In any run, a waiter with k older waiters, when the batch is b, is served within k*1000+1001-b handoffs |
| Uta.BoundIsReached | litl/src/uta.c:145-202 | The bound is exact for uta.c: for every k and b a run of it keeps a waiter with k older ones out for all of k*1000+1001-b handoffs, by short newcomers |
| Uta.StepLedger | litl/src/uta.c:169-187 | A drop of the threshold happens exactly on the pick that takes the batch past a multiple of 100 |
| Uta.ThresholdLedger | litl/src/uta.c:169-187 | Over a whole run threshold = 10000 + misses - hundredth picks, counted as events by what the release sees, and 100 times the latter plus the batch modulo 100 never exceed the number of handoffs |
| Uta.ThresholdFitsInt32 | litl/src/uta.c:115 | The 32-bit copy of the 64-bit threshold is exact for the first 2^31 - 10001 handoffs |
| FineLockProof.StepKeeps | litl/src/uta.c:107-223 | Forward simulation: after every enabled memory access of any thread the memory again represents the queue state reached by the corresponding abstract event, or the same one |
| FineLockProof.DrainKeeps | litl/src/uta.c:117-138 | The compare-and-swap that sets tail to NULL or to the end of the secondary list, with the grant still to be stored |
| FineLockProof.PickCurKeeps | litl/src/uta.c:152-180 | Both splices, onto an empty and onto a non-empty secondary list, and the pick without one |
| FineLockProof.PickBestKeeps | litl/src/cspick.c:186-197 | The splice up to a candidate remembered by the scan, behind which the scan went on |
| FineLockProof.FlushKeeps | litl/src/uta.c:189-202 | Linking the secondary list back in front of the main one, while the main one may still grow |
| FineLockProof.LinkKeeps | litl/src/uta.c:215 | A link stored late, while others have queued behind it and the release may be waiting for it |
| FineLockTheorems.AlwaysRelated | litl/src/uta.c:107-223 | The simulation holds in every state of every execution |
| FineLockTheorems.ExactlyOneToken | litl/src/uta.c:117-138 | tail is NULL exactly when nobody is queued or holds; otherwise exactly one thread owns the lock, counting one that is in unlock and one that was granted and has not seen it |
| FineLockTheorems.DecisionIsHandoff | litl/src/uta.c:117-202 | The steps that commit to a grantee are exactly the handoffs of the abstract lock |
| FineLockTheorems.QueuesAreTheArrivalOrder | litl/src/uta.c:107-223 | In every reachable state the two lists together are the sequence that appends who exchanges tail and removes who is chosen, for any policy |
| FineLockTheorems.ListsAreTheArrivalOrder | litl/src/uta.c:107-223 | What following next finds in memory, from the grant word and then from the holder, is a prefix of that sequence without repetition or loss; it stops short only at a thread that has not stored its link, and secTail is the end of the first list |
| FineLockTheorems.LensAreBrought | litl/src/uta.c:255-259 | In every execution the length in a node is the argument its thread last queued with, by the steps alone |
| FineLockTheorems.LockReturnsInside | litl/src/uta.c:208-223 | A thread that has entered lock is in it until it holds the lock, for any policy |
| FineLockProgress.NeverStuck | litl/src/uta.c:107-223 | While the lock is not free, as many steps as there are unserved threads and seven more, of queued threads or the one that owes a grant, and all steps of uta.c, come to a decision or free the lock |
| UtaInterleaved.StepSimulates | litl/src/uta.c:107-223 | Every memory access of a thread running uta.c is a step of the abstract lock of module Uta or leaves it alone |
| UtaInterleaved.ExecutionsAreRuns | litl/src/uta.c:107-223 | Every interleaving of uta.c is a run of that lock |
| UtaInterleaved.GrantsFirstShort | litl/src/uta.c:117-202 | In every interleaving the deciding thread grants the first node shorter than the threshold that its scan of its list has come to, with the batch raised by one, exactly when there is one and the batch in its word is below 1000; in every other case it grants the oldest thread unserved, with batch 1 |
| UtaInterleaved.MissSawEverybody | litl/src/uta.c:147-180 | A scan gives up only at the end of what is linked, where nobody is shorter than the threshold |
| UtaInterleaved.NoThreadStarves | litl/src/uta.c:107-223 | The bound k*1000+1001-b holds in every interleaving, counted in decisions, k being the place in the arrival order |
| UtaInterleaved.ChosenPassOnlyLonger | litl/src/uta.c:147-180 | In every interleaving whoever is chosen came with a strictly shorter predicted section than every earlier arrival still unserved |
| UtaInterleaved.ThresholdInMemory | litl/src/uta.c:169-187 | In every execution the threshold in memory is 10000 plus the flushes that follow a miss minus the picks that take a batch to a multiple of 100, both counted among the steps; it fits 32 bits for the first 2^31 - 10001 decisions |
| UxInterleaved.OnlyUxPassesNonUx | litl/src/uxpick.c:153-240 | In every interleaving of uxpick.c, whatever the batch counter reads, whoever is chosen ahead of an earlier arrival came as a ux thread and the one passed did not |
| UxInterleaved.GrantsFirstUx | litl/src/uxpick.c:153-240 | In every interleaving a release that looks grants the first ux thread its scan has come to; one that sees none, or does not look because the batch is used up, grants the oldest thread unserved |
| CsInterleaved.PassesOnlyLongerIff | litl/src/cspick.c:156-258 | In every interleaving of cspick.c, whatever the batch counter reads, a pick passes only longer waiters of both queues exactly when its scan saw a short one, or one behind the head that is shorter than the head and than the whole secondary queue |
| CsInterleaved.ShortPassesOnlyLonger | litl/src/cspick.c:156-198 | In every interleaving a short thread chosen ahead of an earlier arrival came with a shorter section than it |
| CsInterleaved.GrantsShortOrMin | litl/src/cspick.c:156-258 | In every interleaving a release that looks grants the first short thread its scan has come to, else the leftmost minimum behind the head; if there is neither, or the batch is used up, it grants the oldest thread unserved |
| CsInterleaved.StepKeepsCs | litl/src/cspick.c:156-198 | What every access keeps: nobody in the secondary list is short, and the candidate the scan remembers is the leftmost minimum behind the head of what it has passed |
| SpinWord.EveryWordUnpacks | litl/src/uta.c:111-112 | In every reachable state, for any head below 2^48, the shift and the masks give back batch and head of every grant word, stored or about to be, and the packed word is not zero |
| GrantWord.HeadUnpacks | litl/src/uta.c:112 | Masking gives back the head exactly when it is below 2^48 |
| GrantWord.BatchUnpacks | litl/src/uta.c:111 | Shifting gives back the batch exactly when it is below 2^16 |
| GrantWord.PackedIsNotZero | litl/src/uta.c:177-178 | A packed word with a batch in range is not the zero the waiter spins on |
| GrantWord.SmallBatchUnpacks | litl/src/uta.c:111-112 | All three for every batch that uta.c can store |
| UtaHeap.UtaMutex.Lock | litl/src/uta.c:208-223 | Joining the list on the heap is the arrival of module Uta with the length of the node |
| UtaHeap.UtaMutex.FindShort | litl/src/uta.c:147-168 | The scan loop returns the first node shorter than the threshold and the node before it, or NULL |
| UtaHeap.UtaMutex.GrantShort | litl/src/uta.c:157-180 | Splice and grant produce the queues after the pick, in both splice branches and without one |
| UtaHeap.UtaMutex.Unlock | litl/src/uta.c:107-205 | The whole unlock on heap nodes is the release of module Uta: same next holder, queues, batch and threshold |
| QueueHeap.WaitQueue.Splice | litl/src/uta.c:157-163 | The stores of a splice move exactly the skipped nodes to the end of the secondary list |
| QueueHeap.WaitQueue.Drain | litl/src/uta.c:117-135 | Unlocking with no successor empties the lock or makes the secondary list the main one |
| QueueHeap.WaitQueue.GrantOldest | litl/src/uta.c:189-202 | The flush on the heap grants the oldest waiter and leaves one list in arrival order |
| PickLock.NoStarvation | litl/src/uxpick.c:228-238 | Whatever find_successor answers, a waiter with k before it is served within k*(cap+1)+cap+1-batch handoffs, the branch that keeps the batch included; cap is 100 for uxpick.c and 50 for cspick.c |
| PickLock.ReleaseServes | litl/src/uxpick.c:197-240 | Below the limit a release serves who was found, the batch raised by one, and exactly those before it join the secondary queue; else it serves the oldest of both queues, and keeps the batch exactly when the main queue is not empty and the secondary one is, and else sets it to 0 |
| PickLock.UxRunIsRun | litl/src/uxpick.c:153-240 | Runs of uxpick.c are among those the bound covers |
| PickLock.CsRunIsRun | litl/src/cspick.c:156-258 | So are runs of cspick.c |
| PickLock.ExhaustedIsFifo | litl/src/uxpick.c:228-238 | From a state at the batch limit with an empty secondary queue the lock is first come, first served until it becomes empty |
| PickLock.ExhaustionIsEntered | litl/src/uxpick.c:228-238 | The state without priority is entered only by the pick of the head that uses up the batch with an empty secondary queue |
| PickLock.UxReachesExhaustion | litl/src/uxpick.c:228-238 | That state is reached by a run of uxpick.c with ux threads alone |
| PickLock.CsReachesExhaustion | litl/src/cspick.c:246-256 | And by a run of cspick.c with short sections alone |
| PickLock.OnlyUxPassesNonUx | litl/src/uxpick.c:153-183 | In every reachable state whoever passes older waiters is a ux thread and passes only non-ux threads, so each class is served in order |
| PickLock.UxIsServedIff | litl/src/uxpick.c:162-238 | With a ux thread in the list, the release grants a ux thread exactly when the batch is below the limit or the oldest waiter is one |
| PickLock.UxIsServedAfterFlush | litl/src/uxpick.c:228-235 | A release at the limit that flushes a secondary queue sets the batch to 0, and if the next one sees a ux thread it serves one |
| PickLock.ShortIsServedIff | litl/src/cspick.c:165-256 | With a short waiter in the list, the release grants a short one exactly when the batch is below the limit or the oldest waiter is one |
| PickLock.ShortIsServedAfterFlush | litl/src/cspick.c:246-253 | The same for short waiters of cspick.c |
| PickLock.SecStaysNotShort | litl/src/cspick.c:156-198 | In every reachable state of cspick.c nobody in the secondary queue is short |
| PickLock.LeftmostMinIs | litl/src/cspick.c:160-187 | The node kept by the scan is the leftmost minimum of those behind the head, and there is none exactly when all are at least MAX_INT |
| PickLock.FindShortOrMinIs | litl/src/cspick.c:156-198 | find_successor of cspick.c: the first short node if there is one, else the leftmost minimum behind the head, else nobody |
| PickLock.PassesOnlyLongerIff | litl/src/cspick.c:156-198 | In every reachable state a pick passes only longer waiters, of both queues, exactly when a short waiter is in sight, or one behind the head is shorter than the head and than the whole secondary queue |
| PickLock.HeadCanLoseToALongerSection | litl/src/cspick.c:161-187 | An input on which the head is passed by a longer section |
| PickLock.SecCanLoseToALongerSection | litl/src/cspick.c:161-187 | A run in which the head is passed by a shorter section and an older waiter of the secondary queue by a longer one |
| PickHeap.SearchUx | litl/src/uxpick.c:162-183 | The search loop of uxpick.c on the heap: the first ux node and the one before it |
| PickHeap.SearchShort | litl/src/cspick.c:160-190 | The search loop of cspick.c on the heap, with its minimum: the first short node, else the leftmost minimum behind the head, and the one before it |
| PickHeap.Take | litl/src/cspick.c:191-197 | The splice of find_successor, onto an empty and a non-empty secondary list, and none for the head |
| PickHeap.PickMutex.TryLock | litl/src/uxpick.c:124-151 | trylock takes the lock exactly when it is free and changes nothing otherwise |
| PickHeap.UxUnlock | litl/src/uxpick.c:197-240 | The whole unlock of uxpick.c on heap nodes is the release of module PickLock |
| PickHeap.CsUnlock | litl/src/cspick.c:215-258 | The whole unlock of cspick.c on heap nodes is the release of module PickLock |
| Fts.RunKeepsInv | litl/src/utafts.c:120-171 | In every reachable state every waiter of the secondary queue holds exactly a full window |
| Fts.ReleaseServes | litl/src/utafts.c:79-263 | A release serves the first waiter it sees with time left, and exactly those before it get a full window and join the secondary queue; if it sees none, everybody it saw gets one and the oldest of both queues is served; nobody else is charged but the holder, for its section |
| Fts.PickSpendsCredit | litl/src/utafts.c:120-155 | A pick lowers the sum of the credits: the granted thread commits a unit and refills give nobody any |
| Fts.MissRefreshes | litl/src/utafts.c:127-171 | After a release that finds nobody every waiter it saw, and everyone from the secondary queue, has a full window |
| Fts.NoStarvation | litl/src/utafts.c:120-171 | With every section costing a tick, a waiter with k before it is served within S+1+k handoffs, S being the sum of positive windows outside the secondary queue; within k+1 in a refreshed round |
| Fts.RoundIsServedInOrder | litl/src/utafts.c:120-171 | In a refreshed round of k+1 waiters the next k+1 releases grant exactly those, in arrival order, before any later arrival |
| FtsHeap.Scan | litl/src/utafts.c:121-148 | The scan loop refills exactly the empty windows it passes and finds the first open one |
| FtsHeap.FtsMutex.Release | litl/src/utafts.c:79-175 | The release on heap nodes: windows, lists and next holder |
| FtsHeap.FtsMutex.Unlock | litl/src/utafts.c:79-263 | Release and charge together are the release event of module Fts |
| Shuffle.PartitionIsStable | litl/src/uxshfl.c:241-303 | What a pass does to the visited segment, by places: everyone has one, ux threads come first, and each class keeps its order |
| Shuffle.ShuffledKeepsNodes | litl/src/uxshfl.c:241-303 | Nobody is lost or duplicated; the leader and the unvisited rest stay where they are |
| Shuffle.VisitNext | litl/src/uxshfl.c:257-295 | One more visit moves a ux thread up behind those moved before, and leaves the list alone otherwise |
| Shuffle.LayoutClasses | litl/src/uxshfl.c:241-303 | Whenever a pass moves a thread, those between the leader and last are ux threads and those from there to prev are not |
| Shuffle.Relinked | litl/src/uxshfl.c:287-289 | The three stores take one node out of the list and put it back behind last |
| Shuffle.LoopBody | litl/src/uxshfl.c:257-295 | The loop body for any three nodes, aliased or not: which branch it takes, what it stores, and the exit when the successor is not linked yet |
| Shuffle.Visit | litl/src/uxshfl.c:257-295 | In a list the loop body is one more visit |
| Shuffle.Appended | litl/src/uxshfl.c:366-368 | A thread that links itself behind the last node while a pass runs leaves the pass as far as it got |
| Shuffle.Pass | litl/src/uxshfl.c:241-303 | Wherever the loop stops, and whoever links itself while it runs, the list is the stable partition of what it visited with the arrivals behind; the last node stays last; it stops without having moved anyone only at the end of the list; the last thread moved carries the count |
| Shuffle.ShuffleWaiters | litl/src/uxshfl.c:202-316 | A call from any safe start, with arrivals: the list, the count, and a next leader that knows how far the pass got, whose start is safe then and stays so whoever comes exactly when it is a ux thread, has a place to go on from, or sees a non-ux thread behind it; past the limit of 50 the next in line starts from scratch, under the same condition |
| Shuffle.SafeForAllIff | litl/src/uxshfl.c:274-290 | A start stays safe whoever links himself behind it exactly when the leader is a ux thread, or has visited somebody, or the one linked behind it is not a ux thread |
| Shuffle.SplitPassIsOnePass | litl/src/uxshfl.c:211-315 | A pass handed over once gives the list of one uninterrupted pass |
| Shuffle.RelayIsOnePass | litl/src/uxshfl.c:211-315 | So does one handed over any number of times, and the last leader stands behind as many moved threads |
| Shuffle.UnsafeStart | litl/src/uxshfl.c:274-290 | The excluded start: the second turn links a thread to itself and drops it, and stopping after the first hands over a position behind the new leader |
| ShflQueue.StepKeepsInv | litl/src/uxshfl.c:335-513 | What every step of the lock keeps, and every move of a thread by a leader that has passed somebody: the linked list is the queue, the byte tells the holder, and stealing is disabled unless the race happened |
| ShflQueue.StepKeepsPromoted | litl/src/uxshfl.c:257-295 | Nor does such a step let anybody but a ux thread stand before an earlier arrival, or before any but a non-ux one |
| ShflQueue.FirstLeaves | litl/src/uxshfl.c:359-455 | Of the queue without a call in progress: from any such state nine steps of queued threads and of the holder let the first one take the lock and hand on |
| ShflLeaders.StepKeepsBaton | litl/src/uxshfl.c:202-455 | What every step keeps that is not a turn going wrong: the counted threads are the front of the queue, at most one thread leads and stands at the end of them, and what it remembers is where the shuffle has come to; the step is the same one of ShflQueue, a move, or none |
| ShflTheorems.MutualExclusion | litl/src/uxshfl.c:335-513 | In every state of every run at most one thread has the lock, however it got it, and the lock byte says whether one has; a turn that goes wrong does not change that |
| ShflTheorems.ShufflingIsSafe | litl/src/uxshfl.c:202-455 | However threads, turns and handovers interleave, as long as no turn goes wrong and the 16-bit counter cannot wrap: the list in memory holds exactly those who exchanged tail and have not left, each once, and compared with the order of those exchanges only ux threads stand before earlier arrivals, and only before non-ux ones |
| ShflTheorems.HeadIsFirst | litl/src/uxshfl.c:391-455 | As long as no turn goes wrong, only the first of the queue spins on the byte, takes it from the queue and hands the place on |
| ShflTheorems.FirstStaysFirst | litl/src/uxshfl.c:359-455 | As long as no turn goes wrong, no arrival, steal or shuffle displaces the first of the queue until it leaves |
| ShflTheorems.ServedInClassOrder | litl/src/uxshfl.c:359-455 | As long as no turn goes wrong, whoever takes the lock from the queue is the first of its class to have exchanged tail, and a non-ux thread only if it is the first of all |
| ShflTheorems.StealingIffRaced | litl/src/uxshfl.c:388-448 | As long as no turn goes wrong, while the queue is in use stealing is enabled exactly when its first thread disabled it before the thread that emptied the queue enabled it, and that has happened since |
| ShflTheorems.OneLeads | litl/src/uxshfl.c:376-417 | As long as no turn goes wrong, at most one thread shuffles or may begin to, appointed or first in line, so two shuffles never overlap |
| ShflTheorems.StoresAreUnseen | litl/src/uxshfl.c:287-289 | As long as no turn goes wrong, between the three stores of a relinking every step of another thread that was possible before them is so with the same effect, and leaves those links alone |
| ShflTheorems.BadIff | litl/src/uxshfl.c:274-290 | The first turn to go wrong does so exactly because its leader is not a ux thread and has passed and moved nobody, and the thread behind it is a ux thread with a successor |
| ShflSteps.FastPathIff | litl/src/uxshfl.c:346-364 | In every run the fast path takes the lock exactly when the lock byte is free and stealing is enabled; otherwise the thread goes on to exchange tail with a fresh node that carries its flag |
| ShflSteps.WaysToTheLock | litl/src/uxshfl.c:346-455 | The only steps that take the lock are the fast path, trylock, and the take of a thread that heads the queue |
| ShflSteps.NobodySteals | litl/src/uxshfl.c:346-455 | While no turn has gone wrong, the queue is in use, its first thread has disabled stealing and the race has not happened, only that thread and a trylock take the lock |
| ShflSteps.StealingWhenEmpty | litl/src/uxshfl.c:388-448 | As long as no turn goes wrong, with nobody queued stealing is enabled or about to be |
| ShflSteps.LockReturnsInside | litl/src/uxshfl.c:335-455 | Whoever failed on the fast path is in lock until it has the lock, whatever the turns do |
| ShflSteps.FlagIsBrought | litl/src/uxshfl.c:359 | A thread in lock carries the flag of its last call |
| ShflSteps.MayBeginIff | litl/src/uxshfl.c:376-417 | As long as no turn goes wrong, exactly those begin a turn who wait and were appointed, or head the queue and were appointed or never counted |
| ShflSteps.OnBegin | litl/src/uxshfl.c:202-233 | A leader that has moved fewer than 50 begins where the turn before it stopped; past that the next in line is appointed instead, from scratch |
| ShflSteps.OnVisit | litl/src/uxshfl.c:241-303 | A visit in terms of the queue: the last one, and a ux thread behind others that has no link yet, end the turn; else a ux thread is counted and moves up right behind the thread moved last, and any other is passed |
| ShflProgress.NeverStuck | litl/src/uxshfl.c:202-455 | With anybody queued and no turn gone wrong, 2 |queue| + 8 steps of the first, of queued threads and of the holder let the first one take the lock and hand on, or come to a turn that goes wrong; a first inside shuffle_waiters finishes its turn before |
| ShflWitness.AThreadIsLost | litl/src/uxshfl.c:202-455 | A run of four threads from an unused lock, after which the queue is empty and one of them waits in it |
| ShflWitness.StealingComesBack | litl/src/uxshfl.c:346-448 | A run of three threads after which a newcomer may take the lock from a waiting head |
| Spinlock.MutualExclusion | litl/src/spinlock.c:61-106 | In every reachable state at most one thread is inside, and then the word is LOCKED |
| Spinlock.ExchangeIff | litl/src/spinlock.c:61-90 | An exchange takes the word exactly when it finds it UNLOCKED; else trylock returns and lock starts to wait as its policy says |
| Spinlock.LockReturnsInside | litl/src/spinlock.c:61-73 | No thread leaves lock without the word: from its call on it is in lock until it is inside |
| Spinlock.NoLostWakeUp | litl/src/waiting_policy.h:97-181 | In every reachable state with the word UNLOCKED and a thread waiting, a contender is awake or a wake-up is owed, and four steps of threads that can run let somebody take the lock, for all three policies |
| Spinlock.StepKeepsInv | litl/src/waiting_policy.h:97-181 | What every step keeps: the word tells who is inside, and an UNLOCKED word with a sleeper is attended to |
| WaitingPolicy.UnlockedIsSeen | litl/src/waiting_policy.h:97-181 | A waiting thread never returns on a LOCKED word, never parks on an UNLOCKED one, and sees one within two moves of its own |
| WaitingPolicy.ParksAfter | litl/src/waiting_policy.h:97-181 | A thread that finds the word LOCKED all the time parks with its first move, or with move 4003, or never, as the policy says |
| WaitingPolicy.ReturnsFromParking | litl/src/waiting_policy.h:97-143 | Only an interrupted wait is called again; after any other return the thread never parks again |
| Mcs.QueueIsTheArrivalOrder | litl/src/mcs.c:79-152 | In every reachable state the list in memory is those who joined, in order, without the first few, who left; links are stored, pending or absent as the list says, and a parked thread whose word is UNLOCKED has a wake-up coming |
| Mcs.MutualExclusion | litl/src/mcs.c:79-152 | At most one thread is in the section or on its way out, under spurious and stale wake-ups |
| Mcs.ServiceIsFifo | litl/src/mcs.c:79-152 | Whoever is in the section is the first of those who joined and have not left |
| Mcs.TrylockIff | litl/src/mcs.c:110-131 | trylock takes the lock exactly when it finds tail NULL, and else returns without having joined or changed anything |
| Mcs.LockReturnsInside | litl/src/mcs.c:79-106 | From its call on a thread is in lock until it has the lock |
| Mcs.NeverStuck | litl/src/mcs.c:79-152 | In every reachable state with anybody queued, eight steps of queued threads and owed wake-ups let the first one in, out, and hand over |
| Mcs.GrantedLeaves | litl/src/waiting_policy.h:97-143 | A granted thread gets in within two steps even when parked and its waker is late |
| Mcs.ExpecterLeaves | litl/src/mcs.c:136-150 | An unlock that lost the race for tail gets its link within two steps of the thread that won |
| Ticket.CountersTellTheQueue | litl/src/ticket.c:64-70 | With fewer than 2^32 threads and any number of acquisitions, request - grant modulo 2^32 is the number of those who joined and have not left, and no two spin on the same ticket |
| Ticket.ServiceIsFifo | litl/src/ticket.c:64-105 | Whoever is inside is the first of those who joined and have not left |
| Ticket.MutualExclusion | litl/src/ticket.c:64-105 | At most one thread is inside |
| Ticket.OnlyTheOldestGetsIn | litl/src/ticket.c:66-69 | A waiting thread that looks gets in exactly when it is the oldest, wrap-around included |
| Ticket.TrylockIff | litl/src/ticket.c:80-92 | The 64-bit compare-and-swap of trylock succeeds exactly when nobody holds or waits and request has the value that was read, which it has also after a multiple of 2^32 joins |
| Ticket.TrylockAloneIff | litl/src/ticket.c:80-92 | A trylock that nobody interferes with succeeds exactly on a free lock, however often it was used |
| Ticket.SeenIsRequest | litl/src/ticket.c:84 | What trylock goes by is the value request had when it read it |
| Ticket.LockReturnsInside | litl/src/ticket.c:64-70 | From its call on a thread spins on the ticket it took until it is inside |
| Predict.SamplesConverge | litl/src/uta.c:298-304 | Repeated samples d bring the estimate into [d-7, d] within as many samples as it is away, from above onto d, where it stays |
| Predict.SampleAttracts | litl/src/uta.c:300-304 | One sample never moves the estimate away from the sample nor past it |
| Predict.LongSamplesAreIgnored | litl/src/uta.c:298-304 | Samples of 10^7 cycles and more are kept only when first |
| Predict.AsInt32Is | litl/src/uta.c:257 | The length passed on is the estimate if that is below 2^31, and else the int with the same lower 32 bits |
| Predict.NestedRunRestores | litl/src/uta.c:255-305 | Any well-nested sections within the stack capacity leave the stack as it was, and charge every section to its own location for the time since the last start there |
| Predict.OwnDurationIff | litl/src/uta.c:262-304 | A section is charged its own duration exactly when no section nested in it is at the same location, and never more |
| Predict.Predictor.PushLoc | litl/src/uta.c:48-58 | Pushing, and the failure on a full stack with the position it leaves behind |
| Predict.Predictor.PopLoc | litl/src/uta.c:61-66 | Popping, and -1 from an empty stack |
| Predict.Predictor.Lock | litl/src/uta.c:255-268 | The thread-local part of lock opens a section and computes the length to queue with, 0 when nested |
| Predict.Predictor.Unlock | litl/src/uta.c:291-305 | The thread-local part of unlock closes the innermost section and updates the estimate of its location |

## Left out

- The trylock of uta.c and utafts.c (uta.c:96-105, utafts.c:68-77): it does not reset `spin`, so a pointer to an old secondary list can survive into the next unlock. The theorems are about lock and unlock.
- Memory orders weaker than sequential consistency, cache-line padding, allocation, and the reuse of a node before its previous use is over.
- FineLock.Splice: the stores of one splice are a single step, since no other thread reads those fields before the grant.
- UtaHeap.UtaMutex.Unlock: on a list in which every arrival has stored its link. `FineLock` covers arrivals that overlap a release; so for the four below.
- PickHeap.UxUnlock: on a list in which every arrival has stored its link.
- PickHeap.CsUnlock: on a list in which every arrival has stored its link.
- FtsHeap.FtsMutex.Release: on a list in which every arrival has stored its link.
- FtsHeap.FtsMutex.Unlock: on a list in which every arrival has stored its link.
- PickLock.NoStarvation: an unlock is one step. In the source the batch is stored after the grant (uxpick.c:229-230), so two unlocks can overlap on it; the theorems of `FineLockTheorems` and `UxInterleaved` hold under that overlap, the batch bounds are not claimed.
- Fts.NoStarvation: an unlock with its charge is one step, sections are not nested (nesting raises a negative window, utafts.c:228-229), and the releases see the waiter if it is in the main list, that is, its link is stored.
- Shuffle.ShuffleWaiters: threads link themselves in the order of their arrival while it runs; one that links late, when others are already linked behind it, is the same to the pass, which stops at the missing link until then.
- ShflTheorems.ShufflingIsSafe: a visit is one step. `ShflTheorems.StoresAreUnseen` is why its stores can be; its reads of `tail` and of the next link are taken at one moment, the later of the two unless the first ends the turn. After a turn that went wrong only `ShflTheorems.MutualExclusion` is claimed, and there are fewer than 65486 threads.
- ShflLeaders.StepKeepsBaton: the two stores of set_sleader (uxshfl.c:179-182) are one step. In between, the appointed thread could begin its turn without the place to go on from; unless it is the leader itself, which stores both before it looks, it is a ux thread and starts from scratch, which is a safe start.
- The bans of greedy threads in uxshfl.c (uxshfl.c:339-349, 497-511), which only delay a thread before it asks.
- Predict.Predictor.Lock: at most 129 open sections, which is what the stack holds.
- Ticket.CountersTellTheQueue: the threads are fewer than 2^32.
- The waiting policy that takes the word while waiting (waiting_policy.h:86-95), which the build of spinlock.c does not use, and the view of a 64-bit `spin` through a pointer to int in uxpick.c and cspick.c.
- The nested-level counter outside uta.c, and condition variables and the posix lock taken beside each lock.
- rwtas.c, the interposition library with its hash table, uxactive.c, csupperbound.c, utascl.c, utaspc.c, the LLVM demo, benchmarks and scripts.
