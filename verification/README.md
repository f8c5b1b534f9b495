# Verified model of the hybrid multi-primary database

A model, in Dafny, of the protocols on which several primaries share one storage, and proofs of what
those protocols promise. Seven parts:

- **Tuple-lock handoff** (`LockWaitTypes`, `Handoff*`, `LockWaitManager`, `ManagerRefinement`): FIFO wait queues
  that travel with a tuple lock from node to node, the RESERVE/PUBLISH grant, versioned holder updates,
  tombstones, and cancellation racing with reservation. The cluster is a step system: a region under one
  mutex or under one exclusive page is one step, and a RESERVE, PUBLISH or holder update stays deliverable
  for ever, so that every delay and every repetition is among the runs. `HandoffInv` states the invariant key
  by key; `HandoffFrame` shows that a step on one key leaves the others in order; the files between prove it
  for each step; `HandoffTheorems`, `HandoffIndex` and `HandoffChecks` hold the results, `HandoffProgress`,
  `HandoffMeasure` and `HandoffLive` that no unlock and no transaction hangs. `LockWaitManager` is the
  manager of one node as a class, and `ManagerRefinement` shows that what the steps of the cluster do to a
  manager is what its operations do.
- **Deadlock detection** (`ChainWalk`, `WaitGraph`, `DeadlockDetection`, `DeadlockInTime`): the bounded chain walk,
  and what its verdict means on the edges that the handoff protocol maintains, in one state and over a run.
- **Page ownership** (`PageLockTypes`, `PageOwnership`, `PageSteps`, `PageTheorems`, `GlobalPageLock`,
  `LocalPageLock`): the lazy-release reader/writer lock of a page, for any number of nodes; `PageProgress` shows that
  nobody waits for it in vain.
- **Page copies** (`PageCopies`, `CopySteps`, `CopyTheorems`, `CopyRecord`): the record of valid copies, the pushes
  that bring the page to its next owners, and the versions in the buffer pools, on top of page ownership.
  `JointSteps` and `JointRun` put the copies of a page and the log into one run.
- **Logging** (`WriteAheadLog`, `WalProofs`, `LogProgress`, `NodeLog`): LSNs, group flush, the persisted watermark,
  page chains across nodes, and the three ways a page may leave a node.
- **Two-phase commit** (`PreparedTxn`, `PreparedRegistry`, `TwoPhaseCommit`, `TwoPhaseProofs`,
  `TwoPhaseProgress`, `TwoPhaseParticipant`, `RegistrySteps`): durable Prepare in the variants "2pc", "2pc-cornus" and
  "2pc-cornus-opt". `PrepareNotifier`, `NotifierProofs` and `NotifierMemory` are storage's aggregation of
  the votes.
- **Buffer pool and partitioning** (`BufferPool`, `Partition`).

Objects that the code updates in place are classes whose methods are proved against functions of the old state;
the step systems use the same functions. `Reachable` means: the end of some run from the initial state.

Three statements one might expect turn out to be false of the code, and are proved with their exact conditions:

- The chain walk does not answer "no deadlock" for every cycle that excludes the caller. It does so if and only
  if the walk does not reach its last permitted hop; otherwise its assertion fails (`ChainWalk.WalkIsExact`,
  `ChainWalk.LongDownstreamCycleOverruns`).
- The registry of prepared contexts does not by itself prevent a second commit. A context being applied is taken
  again if and only if it is marked prepared again and a Commit comes after that
  (`PreparedTxn.SecondTakeIffMarkedAgain`, `PreparedTxn.TwoMarksTwoTakes`). The Prepare handler marks each context
  once, and under it no run commits twice (`TwoPhaseProofs.TakenAtMostOnce`).
- Storage does not report a transaction only once in a run of any length. It forgets an answered transaction if and
  only if at least 4096 answers follow the transaction's own (`NotifierMemory.ForgottenIff`). Until then it reports
  once (`NotifierMemory.NoticeWhileRemembered`); after that it reports again exactly when all records come again
  (`NotifierMemory.ToldAgainIff`), and `NotifierMemory.ToldTwice` is a run in which they do. A second report changes
  nothing in the cluster model.

Assumptions taken from the code's own comments: start timestamps are unique and never zero; a transaction never
locks a tuple again that it has released; a node has one outstanding request per page; storage looks at a record
only once it is durable. A remote call is answered in the end; an ambiguous failure stops the code, and so ends
the run.

## Model

| member | source | states |
|---|---|---|
| `HandoffTheorems.StepKeeps` | core/dtx/lock_wait.h:192-429 | every step of the cluster (begin, lock, register, reserve, publish, update, cancel, unlock, finish, with any message arriving any number of times) keeps the protocol invariant |
| `HandoffTheorems.ReachableInv` | core/dtx/lock_wait.h:192-651 | so the invariant holds after every run from the empty cluster |
| `HandoffTheorems.MutualExclusion` | core/dtx/dtx_exe.cc:201-263 | two transactions that act as holder of a tuple, by having locked it or by waking up to it, are the same one, and the tuple names it |
| `HandoffTheorems.OwnerIsAlive` | core/dtx/lock_wait.h:743-754 | a tuple never names a transaction that has gone: its owner is active there and holds the tuple, or is pinned and will wake up to it |
| `HandoffTheorems.EpisodeProgress` | core/dtx/lock_wait.h:408-449 | each step moves a wait only from WAITING to RESERVED to GRANTED; the grant comes only when the tuple already names the waiter and no unlock is under way; a reserved wait cannot be left |
| `HandoffTheorems.ChosenIsNeverVictim` | core/dtx/lock_wait.h:935-939 | in every run a transaction chosen as successor stays chosen until it wakes up as the owner the tuple names, and never leaves as a deadlock victim |
| `HandoffTheorems.EdgesFollowTheLock` | core/dtx/lock_wait.h:479-509 | outside the window of a handoff every waiter is in the key's one queue and records that queue's owner, on the owner's node, with a version the queue has reached |
| `HandoffTheorems.EdgesInsideTheWindow` | core/dtx/lock_wait.h:549-590 | inside the window a recorded edge names the unlocking holder or the successor, nobody else |
| `HandoffTheorems.NoOrphanQueue` | core/dtx/lock_wait.h:192-249 | the owner of every queue is active on the queue's node, and if it has released the key, its own unlock is still looking for a successor |
| `HandoffTheorems.FinishLeavesNoQueue` | core/dtx/lock_wait.h:604-651 | when a transaction finishes on a node, no queue there is left in its name |
| `HandoffIndex.StepIndex` | core/dtx/lock_wait.h:237-399 | the reverse index of every node is edited as the code edits it, and every step keeps it equal to the owners of the queues there |
| `HandoffIndex.IndexIsExact` | core/dtx/lock_wait.h:237-399 | in every run a node's index lists a key under a transaction if and only if that transaction owns the key's queue there |
| `HandoffIndex.FinishFindsNoResidual` | core/dtx/lock_wait.h:604-651 | so the residual check of FinishTx, which reads the index, never fires |
| `HandoffTheorems.NobodyIsLost` | core/dtx/lock_wait.h:294-359 | a waiting transaction is in the line of its key exactly once, except while it is itself being asked to take over |
| `HandoffTheorems.HandoffConservesTheFifo` | core/dtx/lock_wait.h:294-406 | the frozen queue is the refused candidates, then the successor, then exactly the queue installed at the successor, and every refused candidate had left for good |
| `HandoffTheorems.EmptyMeansNobodyWaits` | core/dtx/lock_wait.h:313-322 | an unlock that finds no successor leaves no live waiter behind |
| `HandoffTheorems.BeforeIsTheFrozenQueue` | core/dtx/lock_wait.h:304-308 | the recorded frozen queue is the whole line at the moment of freezing, and no later step alters it |
| `HandoffTheorems.MessagesMissLaterEpisodes` | core/dtx/lock_wait.h:408-429 | a message that arrives late changes a wait only if it is the very wait the message was sent for |
| `HandoffReserve.RedeliveryIsNoOp` | core/dtx/lock_wait.h:376-406 | delivering a RESERVE, PUBLISH or holder update again changes nothing at all |
| `HandoffTheorems.RepeatsChangeNothing` | core/dtx/lock_wait.h:376-429 | any run with repeated deliveries ends in the state of the same run with each message delivered once |
| `HandoffChecks.ChecksHold` | core/dtx/lock_wait.h:254-651 | no run fails one of the code's fatal checks, at any step: tombstones, queue owners, versions, reservations, page owner, wait records, and the residual check on the reverse index |
| `HandoffChecks.UnlockAloneIsAnUnlock` | core/dtx/lock_wait.h:254-272 | the unlock without waiters ends in exactly the state of freezing, finding nobody and unlocking, and there really is no waiter |
| `HandoffExample.SomeRunHandsOver` | compute_server/server.h:1737-1748 | some run hands a tuple to a waiter on another node, which wakes up as its owner, with the waiter behind it on the same node relabelled and queued there |
| `HandoffProgress.AnswerGoesOn` | core/dtx/lock_wait.h:376-406 | in every run, once every holder update of a handoff that was ever sent has arrived, the node that made the reservation goes on at once, remote or local |
| `HandoffProgress.UnlockGoesOn` | core/dtx/lock_wait.h:294-374 | an unlock under way always has a step to take or a message still to arrive |
| `HandoffMeasure.MoveFalls` | core/dtx/lock_wait.h:294-406 | each of its steps, and each first arrival of one of its messages, lowers a measure or ends it |
| `HandoffMeasure.NobodyHoldsItUp` | core/dtx/lock_wait.h:294-406 | no other step of anybody raises that measure or ends it |
| `HandoffMeasure.UnlockIsBounded` | core/dtx/lock_wait.h:294-374 | so in any run, whatever else happens, an unlock takes at most that many steps and messages, and one more is possible as long as it is under way |
| `HandoffLive.NobodyIsStuck` | core/dtx/dtx_exe.cc:201-263 | in every run every transaction has a next step, whatever its phase, or the unlock or the grant it waits for goes on |
| `HandoffLive.EveryUnlockEnds` | core/dtx/lock_wait.h:294-374 | from every state of every run an unlock can come to its end, and the tuple is then out of the old holder's hands |
| `HandoffLive.EveryChosenWakes` | core/dtx/lock_wait.h:408-429 | from every state of every run a chosen successor can wake up and find the tuple in its own name |
| `HandoffLive.EveryTransactionCanFinish` | core/dtx/lock_wait.h:604-651 | from every state of every run any transaction can end, give all its tuples up and finish on every node |
| `LockWaitManager.Manager.constructor` | core/dtx/lock_wait.h:180-180 | a new manager has no transactions, queues, tombstones or waits |
| `LockWaitManager.Manager.OnTxnBegin` | core/dtx/lock_wait.h:183-187 | the transaction is active afterwards and nothing else changes |
| `LockWaitManager.Manager.OnRegisterTupleWait` | core/dtx/lock_wait.h:192-249 | answers and queues exactly as the registration rule says, once per waiter, leaves other keys alone and keeps the reverse index exact |
| `LockWaitManager.Manager.DropQueue` | core/dtx/lock_wait.h:260-263 | the queue and its index entry go together |
| `LockWaitManager.Manager.PrepareUncontendedUnlock` | core/dtx/lock_wait.h:254-272 | succeeds exactly when nobody is queued; then the queue is gone and the tombstone set, otherwise nothing changes |
| `LockWaitManager.Manager.UpdateTail` | core/dtx/lock_wait.h:479-509 | relabels exactly the tail recorded here and collects the rest by node in queue order |
| `LockWaitManager.Manager.ReserveHere` | core/dtx/lock_wait.h:329-340 | pins the candidate exactly if it is still reservable, gives it the queue, and keeps the index exact if and only if the candidate is not the old holder |
| `LockWaitManager.Manager.OfferHead` | core/dtx/lock_wait.h:309-350 | one round of the search: the head is offered the lock and either takes the whole rest of the queue over or is dropped |
| `LockWaitManager.Manager.PrepareHandoff` | core/dtx/lock_wait.h:294-359 | the successor is the first entry that can still be reserved, with exactly the entries behind it as tail and a version counting the offers made |
| `LockWaitManager.Manager.TryAcceptHandoff` | core/dtx/lock_wait.h:376-406 | accepts exactly a fresh or a repeated reservation; only a fresh one touches the queue; the index stays exact if and only if the key had no other owner here |
| `LockWaitManager.Manager.PublishHandoff` | core/dtx/lock_wait.h:408-429 | grants the one episode that carries this reservation, and touches no other |
| `LockWaitManager.Manager.OnUpdateWaiterHolder` | core/dtx/lock_wait.h:549-590 | relabels exactly the listed waits on the same tuple with a strictly older version |
| `LockWaitManager.Manager.FinishTx` | core/dtx/lock_wait.h:604-651 | raises the residual failure if and only if a queue still belongs to the transaction, given the exact index that every run keeps (`ManagerRefinement.ManagersStayValid`) |
| `LockWaitManager.Manager.RegisterLocalWaiter` | core/dtx/lock_wait.h:738-742 | adds the wait record |
| `LockWaitManager.Manager.TryUnregisterLocalWaiter` | core/dtx/lock_wait.h:745-754 | a reserved wait stays; any other leaves, as new holder exactly if granted |
| `LockWaitManager.Manager.QueryWaiterHolder` | core/dtx/lock_wait.h:466-473 | answers with the recorded edge exactly for a transaction that is still waiting |
| `LockWaitManager.IndexMove` | core/dtx/lock_wait.h:333-336 | moving a queue keeps the reverse index exact if and only if the owner really changes |
| `LockWaitManager.IndexAdd` | core/dtx/lock_wait.h:394-399 | installing a queue keeps the reverse index exact if and only if the key did not belong to somebody else |
| `ManagerRefinement.PopIsOfferHead` | core/dtx/lock_wait.h:309-341 | the cluster's search step changes the records and queues of the unlocking node as OfferHead says, and no other node |
| `ManagerRefinement.FreshReserveIsTryAccept` | core/dtx/lock_wait.h:392-403 | a reservation step that pins changes the successor's node as the fresh branch of TryAcceptHandoff says, its index included, and no other node |
| `ManagerRefinement.OtherReserveIsTryAccept` | core/dtx/lock_wait.h:376-391 | a refused or repeated reservation changes what TryAcceptHandoff changes then |
| `ManagerRefinement.OtherReserveChangesNothing` | core/dtx/lock_wait.h:376-391 | and in every run it changes no manager at all |
| `ManagerRefinement.RegistrationIsOnRegister` | core/dtx/lock_wait.h:192-249 | the registration step is OnRegisterTupleWait on the node that manages the lock |
| `ManagerRefinement.EnrollIsRegisterLocalWaiter` | core/dtx/lock_wait.h:738-742 | enrolling a wait is RegisterLocalWaiter at the transaction's home |
| `ManagerRefinement.LeavingIsTryUnregister` | core/dtx/lock_wait.h:745-754 | being turned away, waking up and being rolled back are TryUnregisterLocalWaiter at home |
| `ManagerRefinement.FreezeIsMarkForwarded` | core/dtx/lock_wait.h:294-308 | freezing sets the tombstone and leaves everything else |
| `ManagerRefinement.EndOfSearchIsDropQueue` | core/dtx/lock_wait.h:313-350 | a search that ends, with nobody or with a remote successor, drops the queue and its index entry |
| `ManagerRefinement.RefusalChangesNothing` | core/dtx/lock_wait.h:341-350 | a refused candidate changes no manager |
| `ManagerRefinement.PublishIsPublishHandoff` | core/dtx/lock_wait.h:408-429 | a PUBLISH step is PublishHandoff on the successor's node |
| `ManagerRefinement.BeginIsOnTxnBegin` | core/dtx/lock_wait.h:183-187 | beginning at home is OnTxnBegin there |
| `ManagerRefinement.LockIsOnTxnBegin` | core/dtx/lock_wait.h:183-187 | locking a tuple through another node is OnTxnBegin on that node |
| `ManagerRefinement.FinishIsFinishTx` | core/dtx/lock_wait.h:604-651 | finishing is FinishTx, and the index entry it erases is empty |
| `ManagerRefinement.ManagersStayValid` | core/dtx/lock_wait.h:604-651 | a manager object that holds what the cluster says of its node satisfies its class invariant in every reachable state |
| `ManagerRefinement.IndexConditionsHold` | core/dtx/lock_wait.h:309-403 | the conditions under which OfferHead and TryAcceptHandoff keep the index exact hold in every run: the candidate is not the unlocking holder, and a reservation that pins finds no queue of the key |
| `ManagerRefinement.UpdateIsRelabel` | core/dtx/lock_wait.h:549-590 | the cluster's holder update changes the addressed node as OnUpdateWaiterHolder says, and no other node |
| `ChainWalk.DetectDeadlock` | core/dtx/lock_wait.h:1004-1052 | returns the verdict defined without the walk: a simple chain back to the caller within the hop limit, a chain that overruns it, or neither |
| `ChainWalk.WalkIsExact` | core/dtx/lock_wait.h:1004-1052 | on a stable graph: deadlock if and only if the edges return to the caller within 128 transactions, no deadlock only if they never return, and the length assertion fails if and only if the first 127 hops are distinct and the chain goes on past the caller |
| `ChainWalk.LongDownstreamCycleOverruns` | core/dtx/lock_wait.h:1016-1022 | a cycle of 200 transactions that excludes the caller is not answered with false: it trips the length assertion |
| `WaitGraph.TurnedAwayFromEnding` | core/dtx/lock_wait.h:192-235 | a registration is told to re-read only if the holder it names is already on its way out |
| `WaitGraph.StaleIsTurnedAway` | core/dtx/lock_wait.h:192-235 | and a registration whose holder the tuple no longer names is told to re-read, so it does not wait for the new owner |
| `WaitGraph.EdgeHome` | core/dtx/lock_wait.h:465-473 | in every run an answered edge names the node on which its target can be asked |
| `WaitGraph.AnsweredEdge` | core/dtx/lock_wait.h:465-509 | an edge whose target answers in turn is the owner that the tuple itself names |
| `WaitGraph.RealEdge` | core/dtx/lock_wait.h:465-509 | and whoever is blocked by somebody blocked is recorded so |
| `WaitGraph.NotByItself` | core/dtx/lock_wait.h:743-754 | nobody is blocked by a tuple it owns itself |
| `DeadlockDetection.DetectorIsExact` | core/dtx/lock_wait.h:921-933 | in every reachable state, with unlocks, handoffs and registrations under way anywhere, the verdict is about the locks in the tuples themselves: deadlock if and only if at most 128 transactions wait in a circle through the caller, no deadlock only if there is no such circle of any length |
| `DeadlockDetection.CircleHasTwo` | core/dtx/lock_wait.h:921-933 | every circle the detector speaks of has at least two members |
| `DeadlockDetection.NameStays` | core/dtx/lock_wait.h:479-509 | an answer stays true until its transaction is rolled back or the one it names is on its way out |
| `DeadlockDetection.CircleIsDeadlock` | core/dtx/lock_wait.h:1043-1047 | the members of such a circle all wait for tuples owned inside it |
| `DeadlockDetection.DeadlockIsPermanent` | core/dtx/lock_wait.h:935-939 | no run resolves a deadlock unless it rolls a member back |
| `DeadlockInTime.ClosedReadsAreDeadlock` | core/dtx/lock_wait.h:1004-1052 | answers read in later and later states of a run that close up are a deadlock in the state of the last one, if none of those who answered was rolled back |
| `DeadlockInTime.WalkInTimeIsSound` | core/dtx/lock_wait.h:1004-1052 | over any run and any times for the hops: a walk that reports a deadlock closes at some hop within the limit, and those it has met are deadlocked in the state of that hop's answer, or one of them was rolled back before it |
| `DeadlockInTime.WalkInTimeIsComplete` | core/dtx/lock_wait.h:1004-1052 | conversely, if at most 128 transactions wait in a circle through the caller when it reads its own edge, and none of them is rolled back until the walk is done, the walk reports the deadlock, whatever else happens meanwhile |
| `PageTheorems.StepKeeps` | core/GPLM/global_LR_page_lock.h:291-615 | every step of every node keeps the ownership invariant, for any number of nodes and any order of Pending and LockSuccess, with upgrades and evictions |
| `PageTheorems.Coherence` | core/LPLM/local_LR_page_lock.h:103-441 | while a node uses the page exclusively no other node uses it, in every run |
| `PageTheorems.UsersAreHolders` | core/LPLM/local_LR_page_lock.h:291-304 | whoever uses the page is registered with the manager, and an exclusive user is its only holder |
| `PageTheorems.ChecksHold` | core/LPLM/local_LR_page_lock.h:390-441 | every assertion of the local lock holds, and the manager is called only as its own assertions need |
| `PageTheorems.RoundHasTarget` | core/GPLM/global_LR_page_lock.h:143-228 | while requests wait, a round is under way for the first of them and some other holder was told and is still there |
| `PageTheorems.NeverStuck` | core/GPLM/global_LR_page_lock.h:175-185 | while requests wait, a holder in the way always has a next step of its own |
| `PageTheorems.TransferAdvances` | core/GPLM/global_LR_page_lock.h:445-519 | a transfer serves the head of the queue and lowers the position of every request left |
| `PageTheorems.QueueOnlyGrows` | core/GPLM/global_LR_page_lock.h:312-322 | no step reorders the queue: it is extended at its end, or everybody moves forward |
| `PageProgress.ToldOnlyDrains` | core/LPLM/local_LR_page_lock.h:103-148 | a node that was told to give the page up only drains: no step of anybody adds a user, each unlock takes one away, and it stays told until the last has gone and it is no holder any more |
| `PageProgress.EveryRequestIsServed` | core/GPLM/global_LR_page_lock.h:445-519 | from every state of every run whoever has asked for the page can come to use it in the mode it asked for |
| `PageProgress.AnyNodeCanUse` | core/LPLM/local_LR_page_lock.h:103-192 | from every state of every run any node can come to use the page, shared or exclusively, whoever has it now |
| `PageProgress.EvictionIff` | core/remote_page_table/remote_page_table_rpc.h:391-453 | a quiet owner evicts the page in four steps if nobody waits for it; otherwise the manager refuses and nothing has changed |
| `PageExample.SomeRunPassesThePage` | core/remote_page_table/remote_page_table_rpc.h:509-560 | some run takes the page from one exclusive user to another |
| `CopySteps.ActionKeeps` | core/remote_page_table/remote_page_table_rpc.h:189-615 | every step of the ownership protocol, with its effect on valid copies and pushes, and every write, load and push keeps the record of valid copies equal to the holders and all usable copies at the newest version |
| `CopyTheorems.ReachableData` | core/remote_page_table/remote_page_table_rpc.h:189-615 | so it holds in every run, and every run with copies is a run of the ownership protocol |
| `CopyTheorems.UsersHaveTheNewest` | compute_server/lazyrelease_server.cc:12-166 | whoever uses the page, shared or exclusive, has its newest version |
| `CopyTheorems.WriterHasTheOnlyCopy` | compute_server/lazyrelease_server.cc:169-338 | while a node uses the page exclusively, no other node has a copy except to throw it away, and none is on its way |
| `CopyTheorems.LoadFindsNoCopy` | core/GPLM/global_valid_table.h:141-158 | storage is asked only when no node has a copy and none is on its way |
| `CopyTheorems.LeavingLosesNothing` | compute_server/server.cc:493-553 | a holder that gives the page up drops its copy, and the newest version is with another node or on its way |
| `CopyTheorems.CopyChecksHold` | core/LPLM/local_LR_page_lock.h:196-260 | no run fails an assertion about copies: a pushed page finds its node asking for it and without a copy, and whoever reads, sends, evicts or drops the page has it |
| `CopyTheorems.OneSourceEach` | core/GPLM/global_LR_page_lock.h:143-228 | no step gives a node a second source for the page: Pending destinations, push lists and pushes under way never reach it twice |
| `CopyTheorems.AlwaysServes` | compute_server/lazyrelease_server.cc:105-145 | while requests wait, some step towards serving them is possible, although granted nodes wait for their copies |
| `CopyTheorems.AskWaitsIff` | compute_server/server.cc:571-580 | a request waits at the manager only if it could be granted at once and the copy it would be sent is still to come, and then something can be done about that copy |
| `CopyRecord.SenderIsNewest` | core/GPLM/global_LR_page_lock.h:143-228 | in every run the holder that is told to send the page to its next owner is the one the manager records as the newest |
| `CopyRecord.NewestMoves` | core/GPLM/global_valid_table.h:78-158 | the record of the newest copy moves only when its node gives the page up, to a node that has it, or when a first node fetches the page from storage |
| `CopyTheorems.LogMayWrite` | core/dtx/dtx_exe.cc:1190-1200 | a node in exclusive use meets the condition on copies under which the log model writes, if both models show the same copies |
| `CopyTheorems.LogMayLoad` | compute_server/lazyrelease_server.cc:88-104 | a load from storage meets the log model's condition in the same way |
| `CopyTheorems.LogMayArrive` | compute_server/server.cc:325-350 | an arriving push meets the log model's condition in the same way |
| `CopyTheorems.LogMayDrop` | compute_server/lazyrelease_server.cc:341-409 | a copy dropped by a holder that leaves meets the log model's condition in the same way |
| `JointSteps.ProtocolPicture` | core/remote_page_table/remote_page_table_rpc.h:189-615 | what each step of the ownership protocol does to who has a copy and to whom one is on its way: at most one push, then at most one copy gone |
| `JointRun.ActTogether` | compute_server/server.cc:571-649 | every action on the copies, once the code has waited for its log, is possible as a step of the log, and both models show the same copies, pushes and number of writes again |
| `JointRun.LogOnlyKeeps` | core/fiber/scheduler.cc:190-243 | flushes, scheduled pushes that run and everything on other pages leave that picture alone |
| `JointRun.JointRunsAgree` | compute_server/server.cc:571-649 | so in every joint run both models agree on the page, and each part is a run of its own model |
| `JointRun.LogNeverHoldsUp` | compute_server/server.cc:571-649 | in every joint run the log's conditions on copies and pushes hold by themselves |
| `JointRun.UsersSeeTheLog` | compute_server/lazyrelease_server.cc:12-338 | in every joint run whoever uses the page sees every write in its log, and a page that arrives carries them all, durable |
| `CopyExample.SomeRunBringsTheWrite` | compute_server/lazyrelease_server.cc:169-338 | some run brings a write from one node to the next exclusive user |
| `GlobalPageLock.GlobalLock.constructor` | core/GPLM/global_LR_page_lock.h:82-87 | the lock is free and consistent |
| `GlobalPageLock.GlobalLock.SetComputenodePending` | core/GPLM/global_LR_page_lock.h:143-228 | records the requester and tells exactly the other holders |
| `GlobalPageLock.GlobalLock.LockShared` | core/GPLM/global_LR_page_lock.h:291-322 | grants, starts a round or queues as the rule says; all assertions hold and the lock stays consistent |
| `GlobalPageLock.GlobalLock.LockExclusive` | core/GPLM/global_LR_page_lock.h:324-366 | the same for exclusive requests, with the upgrade of a single reader |
| `GlobalPageLock.GlobalLock.UnlockAny` | core/GPLM/global_LR_page_lock.h:593-615 | the holder leaves; holders and lock word agree |
| `GlobalPageLock.GlobalLock.TransferControl` | core/GPLM/global_LR_page_lock.h:445-519 | passes the page to the head writer, to the upgrading reader, or to all queued readers, exactly when it is free for them |
| `GlobalPageLock.GlobalLock.TakeQueuedReaders` | core/GPLM/global_LR_page_lock.h:484-493 | the erasing walk takes every reader in order and leaves every writer in order |
| `GlobalPageLock.GlobalLock.TakeReaders` | core/GPLM/global_LR_page_lock.h:475-498 | all queued readers get the page together and no reader is left in the queue |
| `GlobalPageLock.GlobalLock.SendLockSuccess` | core/GPLM/global_LR_page_lock.h:388-436 | every holder is told once, and the round's requester is forgotten |
| `GlobalPageLock.GlobalLock.TransferPending` | core/GPLM/global_LR_page_lock.h:523-563 | starts the next round if and only if requests are left |
| `GlobalPageLock.GlobalLock.AnyUnLock` | core/remote_page_table/remote_page_table_rpc.h:509-560 | unlock, transfer, grant messages and next round together, with every assertion on the way, keep the lock consistent |
| `GlobalPageLock.GlobalLock.BufferRelease` | core/remote_page_table/remote_page_table_rpc.h:391-453 | agrees to an eviction exactly if the node holds the page and no round is under way, and then nobody is queued |
| `LocalPageLock.LocalLock.constructor` | core/LPLM/local_LR_page_lock.h:54-62 | a new lock owns nothing |
| `LocalPageLock.LocalLock.TryLockShared` | core/LPLM/local_LR_page_lock.h:103-148 | one try takes the shared latch, and raises the count by one, exactly when the node is not granting, told to leave or evicting and nobody has the page exclusively; it asks the manager exactly when the node owns nothing |
| `LocalPageLock.LocalLock.TryLockExclusive` | core/LPLM/local_LR_page_lock.h:150-192 | one try takes the exclusive latch exactly when the page is idle, and asks the manager unless it is already owned exclusively |
| `LocalPageLock.LocalLock.LockRemoteOK` | core/LPLM/local_LR_page_lock.h:291-305 | the granted mode matches the latch and the page is in use |
| `LocalPageLock.LocalLock.NotifyLockSuccess` | core/LPLM/local_LR_page_lock.h:203-213 | records the grant for the waiting request |
| `LocalPageLock.LocalLock.Release` | core/LPLM/local_LR_page_lock.h:307-356 | the last user gives the page up exactly if it is wanted back |
| `LocalPageLock.LocalLock.Pending` | core/LPLM/local_LR_page_lock.h:390-441 | gives the page up at once exactly if it is idle or a reader is waiting to upgrade, otherwise remembers the wish |
| `LocalPageLock.LocalLock.TryBeginEvict` | core/LPLM/local_LR_page_lock.h:262-277 | reserves the page for eviction exactly if it is idle and owned, and then nobody can latch it |
| `LocalPageLock.LocalLock.FinishEvict` | core/LPLM/local_LR_page_lock.h:359-384 | after the manager's consent the ownership is forgotten |
| `WalProofs.StepKeeps` | compute_server/server.h:1607-1695 | every append, flush, watermark update, push, arrival, drop, eviction and load keeps the logging invariant |
| `WalProofs.WatermarkIsSafe` | compute_server/server.h:1642-1653 | durable, in-flight and queued records are strictly LSN-increasing, so a wait for an LSN returns only when every record of the node up to it is durable |
| `WalProofs.ChainAcrossNodes` | compute_server/server.cc:940-943 | across any owners a page's LSNs increase and each record's previous LSN is exactly that of the record before it on the page |
| `WalProofs.CoveredIsDurable` | compute_server/server.h:1607-1640 | when the wait for a page returns, every record on the page is durable, whichever node wrote it |
| `LogProgress.LetGoIff` | compute_server/server.h:1607-1640 | the wait for a page returns if and only if the page is clean or the watermark has reached everything the node itself wrote to it |
| `LogProgress.CleanGoesAtOnce` | compute_server/server.cc:571-649 | a clean copy waits for nothing: it is sent, scheduled and run, or evicted at once, whatever the node's own log says |
| `LogProgress.LetGoMayLeave` | compute_server/server.h:1607-1640 | a page that was let go is clean and may be sent or evicted |
| `LogProgress.FlushedLetsGo` | compute_server/server.cc:571-649 | once the node's flush has stored and published all it issued and told the push scheduler, every copy is let go and every scheduled push may run |
| `LogProgress.WaitsEnd` | compute_server/server.h:1851-1967 | from every state of every run the node's flush alone gets there, with the same pages and pushes |
| `WalProofs.RunnableIsDurable` | core/fiber/scheduler.cc:190-246 | a scheduled push runs only when every record on its page is durable |
| `WalProofs.WalBeforeArrival` | compute_server/server.cc:571-649 | on the direct and on the scheduled path a page arrives elsewhere only with a durable chain |
| `WalProofs.WalBeforeEviction` | compute_server/server.h:1309-1345 | eviction gives a page up only with a durable chain |
| `WalProofs.OnlyOwnRecordsAreVolatile` | compute_server/server.h:1607-1618 | a record that is not durable yet was written by the node that has the copy, and the copy is dirty |
| `NodeLog.LogBuffer.constructor` | compute_server/server.h:1672-1674 | an empty log in order |
| `NodeLog.LogBuffer.UpdatePageLlsn` | compute_server/server.h:1672-1695 | the new LSN is the next one of the node, or the one after the page's LSN if that is ahead, and the counter follows it |
| `NodeLog.LogBuffer.AddPageLog` | compute_server/server.cc:902-949 | the record names the page's previous LSN, gets the new one and joins the queue in order |
| `NodeLog.LogBuffer.AddMetadataLog` | compute_server/server.h:1983-1997 | number and queue place are given together, in order |
| `NodeLog.LogBuffer.LogFlush` | compute_server/server.h:1851-1967 | a complete flush makes everything issued durable and moves the watermark to the last record |
| `NodeLog.LargestLsn` | compute_server/server.h:1883-1891 | the scan returns the largest LSN of the batch |
| `NodeLog.PushScheduler.constructor` | core/fiber/scheduler.h:144-160 | no task, no watermark |
| `NodeLog.PushScheduler.Schedule` | core/fiber/scheduler.h:144-160 | a task is queued as ready exactly if it may run now |
| `NodeLog.PushScheduler.MarkPushReady` | core/fiber/scheduler.cc:190-197 | the watermark is the maximum of all values seen |
| `NodeLog.PushScheduler.Dequeue` | core/fiber/scheduler.cc:211-243 | takes the first task that may run and keeps all others in order; none only if none may run |
| `PreparedTxn.CheckRequest` | core/compute_node/prepared_txn.h:31-52 | the scan accepts exactly the well-formed requests |
| `PreparedTxn.CheckParticipants` | core/compute_node/prepared_txn.h:36-43 | accepts exactly ascending non-negative participants that include the addressed node |
| `PreparedTxn.CheckWrites` | core/compute_node/prepared_txn.h:44-51 | accepts exactly valid writes to distinct tuples |
| `PreparedTxn.TakenAtMostMarked` | core/compute_node/prepared_txn.h:83-125 | whatever is called in whatever order, a context is taken at most as often as it was marked prepared, and never without |
| `PreparedTxn.TakeIsExact` | core/compute_node/prepared_txn.h:103-121 | after any calls, a Commit works on a context of its own identity and timestamps, and takes it if and only if the context was marked prepared and no Commit came since |
| `PreparedTxn.WaitsIffUnmarked` | core/compute_node/prepared_txn.h:103-121 | after any calls, a Commit waits if and only if its context is of version 2 and was never marked |
| `PreparedTxn.TakenIffMarked` | core/compute_node/prepared_txn.h:97-121 | over any calls from any registry, a context is taken if and only if a take comes after a mark |
| `PreparedTxn.SecondTakeIffMarkedAgain` | core/compute_node/prepared_txn.h:97-121 | a context being applied is committed a second time if and only if it is marked prepared again and a Commit comes after that |
| `PreparedTxn.PreparedIffMarkIsLast` | core/compute_node/prepared_txn.h:97-121 | a context is prepared if and only if a mark is the last thing that happened to it |
| `PreparedTxn.ConflictIsRefused` | core/compute_node/prepared_txn.h:85-92 | until its context is erased an identity keeps its payload, whatever is called: the same payload gets the context, any other is refused, and neither changes anything |
| `PreparedTxn.TwoMarksTwoTakes` | core/compute_node/prepared_txn.h:97-121 | a concrete sequence with two marks takes one context twice |
| `PreparedTxn.CallsOnLive` | core/compute_node/prepared_txn.h:85-125 | what each call does to the live contexts; through the handle of an erased context it does nothing to them |
| `PreparedRegistry.Entry.constructor` | core/compute_node/prepared_txn.h:70-80 | a new context is being prepared |
| `PreparedRegistry.Table.constructor` | core/compute_node/prepared_txn.h:126-129 | an empty registry |
| `PreparedRegistry.Table.Begin` | core/compute_node/prepared_txn.h:85-92 | inserts exactly if the identity is free, else returns the live context exactly if the payload is the same |
| `PreparedRegistry.Table.MarkPrepared` | core/compute_node/prepared_txn.h:97-102 | the context is prepared and knows its LSN, and the live contexts change as the registry's do |
| `PreparedRegistry.Table.Take` | core/compute_node/prepared_txn.h:114-120 | one look at the context: wait exactly while a version-2 context is being prepared, take exactly a prepared one, and the live contexts change as the registry's do |
| `PreparedRegistry.Table.Look` | core/compute_node/prepared_txn.h:104-113 | finds exactly the live context that agrees in identity and timestamps |
| `PreparedRegistry.Table.Erase` | core/compute_node/prepared_txn.h:122-125 | forgets the identity and nothing else |
| `TwoPhaseProofs.StepKeeps` | compute_server/twopc_server.cc:150-361 | every step of coordinators, participants and logs keeps the two-phase invariant, with Prepare and Commit messages repeated at will |
| `TwoPhaseProofs.VotesAreDurable` | compute_server/twopc_fetch_server.cc:217-232 | when all votes are in, by replies or by the storage notification, every participant's record is durable |
| `TwoPhaseProofs.CommitAtomicity` | core/dtx/dtx_exe.cc:1081-1123 | once any participant applies a transaction, every participant's full request is durable, every participant has applied it or holds a context only a Commit can remove, and the baseline variant's decision record is durable |
| `TwoPhaseProofs.TakenAtMostOnce` | compute_server/twopc_server.cc:251-268 | in every run a participant's context is taken by at most one Commit |
| `TwoPhaseProofs.LatePrepareIsRefused` | compute_server/twopc_server.cc:192-228 | a Prepare that arrives after its transaction was applied is dropped at its first write |
| `TwoPhaseProofs.CommitFindsItsLocks` | compute_server/twopc_server.cc:306-312 | at each write the Commit loop finds the transaction's own lock, and the request it applies is the durable one |
| `TwoPhaseProofs.DecisionIsFinal` | core/compute_node/prepare_notification.cc:97-136 | once every vote is in, each participant has its record and its context or has committed, and no step takes that back: a context keeps its request and only moves on until it commits |
| `RegistrySteps.CommitWaitsIff` | core/compute_node/prepared_txn.h:103-121 | in every run the Commit of a decided transaction waits if and only if it finds a version-2 context that is still being prepared |
| `RegistrySteps.StepsCallTheRegistry` | compute_server/twopc_server.cc:150-361 | in every run each step of the cluster changes every node's registry exactly as the calls of its handler do |
| `TwoPhaseProgress.TupleChanges` | compute_server/server.h:1735-1748 | a tuple changes only by being locked, unlocked or written, and exactly in those fields: after every unlock or installed write with a successor it names that successor and its node |
| `TwoPhaseProgress.NeverHeldUp` | compute_server/twopc_server.cc:280-361 | a participant of a decided transaction always has its next step, and each brings it closer to its end |
| `TwoPhaseProgress.CanCommitIff` | core/dtx/dtx_exe.cc:1081-1123 | from every state of every run some continuation commits a transaction at all its participants if and only if it is past its votes or every participant still finds its locks |
| `TwoPhaseProgress.OptimisedDecides` | core/compute_node/prepare_notification.cc:97-136 | the optimised variant decides on the durable records alone, without any answer |
| `TwoPhaseProgress.AnswersDecide` | compute_server/twopc_fetch_server.cc:217-232 | the other variants decide exactly when all answers are yes |
| `TwoPhaseProgress.DecisionRecordIff` | core/dtx/dtx_exe.cc:1081-1123 | in every run a decision record is there if and only if the transaction is decided and of the baseline variant |
| `TwoPhaseExample.SomeRunCommits` | compute_server/twopc_server.cc:150-361 | some run commits a transaction at both its participants and installs both writes |
| `PrepareNotifier.Notifier.constructor` | core/storage/prepare_notifier.h:29-41 | no votes and no completions |
| `PrepareNotifier.Notifier.AddVote` | core/storage/prepare_notifier.cc:31-62 | one record: refused, counted, or the one that completes the votes |
| `PrepareNotifier.Notifier.NotifyDone` | core/storage/prepare_notifier.cc:105-124 | an answered notification is remembered, and only the last 4096 are |
| `NotifierProofs.NoticeIsSound` | core/storage/prepare_notifier.cc:31-62 | over any order and repetition of records, and however many completions were forgotten, a coordinator is told only when a record of every participant was observed |
| `NotifierProofs.NeverFails` | core/storage/prepare_notifier.cc:31-62 | records that belong together fail none of the checks |
| `NotifierProofs.NoticeIsExact` | core/storage/prepare_notifier.cc:31-62 | in a run of any length, the coordinator is told at exactly the record that completes the votes, counting records from the start or from when 4096 answers last followed an answer for the transaction |
| `NotifierProofs.ToldIff` | core/storage/prepare_notifier.cc:31-62 | in a run of any length it is told if and only if the transaction is not remembered as completed, was not reported, and this record is the last one missing from the votes kept |
| `NotifierProofs.OldestIsForgotten` | core/storage/prepare_notifier.cc:105-124 | one completion more than 4096 forgets the oldest |
| `NotifierMemory.ForgottenIff` | core/storage/prepare_notifier.cc:105-124 | in a run of any length, an answered transaction is forgotten if and only if at least 4096 answers followed the last one of its own |
| `NotifierMemory.QuietWhileRemembered` | core/storage/prepare_notifier.cc:37-43 | with fewer than 4096 answers since its own, no record of an answered transaction changes anything or is reported |
| `NotifierMemory.NoticeWhileRemembered` | core/storage/prepare_notifier.cc:31-62 | in a run of any length, with fewer than 4096 answers since the transaction's own or none of its own, the coordinator is told at exactly the record that completes all votes ever observed, and never again |
| `NotifierMemory.ToldAgainIff` | core/storage/prepare_notifier.cc:31-62 | once 4096 answers have followed its own, the coordinator is told again at exactly the record that completes the votes observed since then |
| `NotifierMemory.ToldTwice` | core/storage/prepare_notifier.cc:31-62 | a run for every number of rounds: the first transaction is reported in its round and, when its two records come again at the end, once more if and only if there were more than 4096 rounds |
| `NotifierProofs.StoredIsCompatible` | core/storage/prepare_notifier.cc:44-55 | in every run of the cluster the records in storage belong together |
| `NotifierProofs.NotifyGuardHolds` | core/storage/prepare_notifier.cc:64-88 | storage that watches the cluster's records fails no check, and tells a coordinator only when every participant's record is durable, which is the condition of the cluster's notification step |
| `TwoPhaseParticipant.Participant.constructor` | compute_server/twopc_server.cc:192-199 | holds the given tuples |
| `TwoPhaseParticipant.Participant.ValidateWrites` | compute_server/twopc_server.cc:192-228 | the vote is yes exactly if every write finds its tuple partitioned to this node, locked here by this transaction, and held from its coordinator |
| `TwoPhaseParticipant.Participant.InstallWrites` | compute_server/twopc_server.cc:280-338 | every tuple of the write set has its value and the commit timestamp, and is free or names its successor and the successor's node as both of its nodes; nothing else is touched |
| `BufferPool.WithoutBetween` | core/bufferpool_replacer.h:85-95 | erasing an entry of an LRU list leaves everything before and behind it in place |
| `BufferPool.Pool.constructor` | core/bufferpool.h:34-50 | all frames are free, each in the list of its own partition, in order |
| `BufferPool.Pool.TryFetchPage` | core/bufferpool.h:76-93 | returns the mapped frame, pinned and erased from its LRU list with all others in place, or nothing and no change |
| `BufferPool.Pool.UnpinPage` | core/bufferpool.h:137-153 | the page stays mapped and its frame moves to the front of its LRU list, all others in place |
| `BufferPool.Pool.ReleasePage` | core/bufferpool.h:113-134 | the page is unmapped, its frame is erased from its LRU list with all others in place and joins the end of the free list of the page's partition |
| `BufferPool.Pool.TakeFree` | core/bufferpool.h:169-181 | takes the first frame of the page's free list exactly if there is one |
| `BufferPool.Pool.PopFree` | core/bufferpool.h:175-179 | the first frame of the list is in transit and the rest stays in order |
| `BufferPool.Pool.PutFree` | core/bufferpool.h:132-133 | the frame joins the end of that list and no other |
| `BufferPool.Pool.InsertPage` | core/bufferpool.h:230-278 | the frame holds the page; the pool stays consistent if and only if the frame was in transit |
| `BufferPool.Pool.ReplacePage` | core/bufferpool.h:230-278 | the victim is unmapped and the frame holds the page; the pool stays consistent if and only if the frame still held the victim |
| `BufferPool.Pool.TryVictim` | core/bufferpool_replacer.h:43-68 | marks the oldest unclaimed frame among the last five of the first partition, counted from the start, that has one; none only if all those are claimed everywhere |
| `BufferPool.Pool.Probe` | core/bufferpool_replacer.h:48-65 | the search in one partition: the oldest unclaimed of its last five frames, or none |
| `BufferPool.Pool.EndVictim` | core/bufferpool_replacer.h:70-83 | a locked victim is erased from its list with all others in place, any other stays, and the mark is cleared |
| `BufferPool.Pool.Untrack` | core/bufferpool_replacer.h:85-95 | the frame is erased from its list and the hash, and all others stay in place |
| `BufferPool.Pool.Track` | core/bufferpool_replacer.h:97-113 | the frame is first in its list, which always has room, and all others stay in place |
| `Partition.OwnersAgree` | compute_server/server.h:1596-1602 | both owner formulas name the same node, for every page, partition size and node count |
| `Partition.CountIsTrue` | core/connection/meta_manager.h:63-77 | the closed formula counts exactly the pages the node owns |
| `Partition.CountsAddUp` | core/connection/meta_manager.cc:153-160 | over all nodes the counts add up to the pages of the table |

## Left out

- Registration of a wait is taken as delivered exactly once: the code sends it synchronously and stops on an unclear outcome.
- Watchdogs, RPC timeouts, the walk's time budget, wake-up by condition variables and fibers: no effect on what is proved.
- LockWaitManager.Manager.OfferHead: the answer of a remote candidate is a parameter; in the cluster model it is a message.
- LockWaitManager.Manager.PrepareHandoff: runs with nothing else in between; the interleavings of its regions are the steps of the cluster model.
- LocalPageLock.LocalLock.TryLockShared: one round of the retry loop; the backing off between rounds is not modelled.
- LocalPageLock.LocalLock.TryLockExclusive: one round of the retry loop, in the same way.
- GlobalPageLock.GlobalLock.constructor: the state that Reset leaves; the C++ constructor does not set the requester field.
- Lock words are a count or the exclusive mark; the 64-bit constant and overflow of the count are not modelled.
- Page copies: the contents of a page are its version number; a load from storage is taken to bring the newest version, which is what the LSN sent along waits for. A holder that leaves and the drop of its copy are one step, since the node keeps its local mutex in between; so are the arrival of a push and the flag that reports it.
- NodeLog.LogBuffer.LogFlush: one flush with nothing appended meanwhile; the interleavings are the steps of `WriteAheadLog`. Logging is taken as switched on.
- NodeLog.PushScheduler.Dequeue: tasks bound to a thread and fiber states are not modelled; pushes use neither.
- TwoPhaseParticipant.Participant.ValidateWrites: the checks of table name, record size, slot, key and payload size are not modelled; in the cluster model any of them may refuse at any time.
- The decoding of log batches in storage and the timing counters of its notifier.
- The original Prepare without identity, its Commit and Abort, and transactions with one writer: no durable vote is involved.
- Contents of buffer frames are not modelled, nor the retry loop that looks for a victim whose page can be locked.
- Eager page locks and single mode: other system modes, chosen when a node starts, in which page locks are not released lazily.
- Partition locks: a service of the remote server that no compute node calls.
- Storage replay: it works on records that are already durable; the page copies rest only on the assumption about loads stated above.
- The B-link tree and the free-space map: users of page locks. The page protocols hold for any requests for a page.
- SQL execution: its read locks are counts in the tuple's lock word, and it never calls the lock wait manager.
- Statistics and cost models: they observe and never decide who holds a lock, a page or a vote.
- Configuration and the network layer: constants and messages of the models.
