# TEMPO, modelled and proved in Dafny

TEMPO paces the flush of KV-cache blocks and training checkpoints so that storage traffic keeps out of the
way of attention kernels and NCCL collectives.  This project models the parts of it that carry state or
arithmetic and proves what they keep over every run:

- the lock-free ring `SpikeAbsorber` (`SpikeRing*.dfy`, `SpikeAbsorber.dfy`): a step machine with any number of
  producers, each at its own place between the atomic operations of `absorb`, one consumer inside `drain`, weak
  compare-exchange and torn slot payloads;
- the phase monitor (`AttentionMonitor.dfy`), the C++ token bucket (`TokenBucket.dfy`) and the flush loop on top
  of all three (`PacingDaemon.dfy`, `PacingTheorems.dfy`, `PacingWitness.dfy`);
- the peer-to-peer cache: consistent hashing (`HashRing.dfy`), the DRAM/NVMe store (`TierStore.dfy`,
  `TierTheorems.dfy`, `TierMap.dfy`, `TierUse.dfy`) and the rank that combines them (`P2PCache.dfy`);
- checkpoint saving and flushing under the training phases (`CheckpointFlush.dfy`, `CheckpointTheorems.dfy`,
  `CheckpointHistory.dfy`, `CheckpointManager.dfy`, `PhaseMonitor.dfy`);
- staggered checkpoint windows (`NexusCoordinator.dfy`), the soft pacing absorber (`SoftAbsorber.dfy`), sparse KV
  selection (`SparseTransfer.dfy`), and PCIe routing with the Python token bucket (`ServiceGain.dfy`).

Interleavings are sequentially consistent.  A run is a list of actions, `Legal` says that each was enabled, `End`
gives the state after it; theorems about runs hold for every legal run.  Objects that the source updates in place are
classes; where several threads meet, the class carries the run that led to its state, or its methods are tied to
functions on its abstract value, so the theorems apply to it.  Doubles are reals.  Clock readings, file outcomes,
MD5 values, the network, exponentials and the scheduler's choices are inputs.

## What the code does that its documentation does not say

- The CHECKPOINT phase leaves the I/O gate open (`CheckpointTheorems.GateFollowsPhase`); the header of
  `phase_monitor.py` says flushing is paused.
- A chunk size of zero loses checkpoints, and only that does (`CheckpointTheorems.LossExactlyWithEmptyChunks`).
- A smoothed NCCL duration below about 4.7 ms makes the flush rate zero even outside collectives
  (`PhaseMonitorModel.RateIsZeroExactlyWhen`).
- A block of size zero is never granted tokens, so it is never submitted: it stays in the ring or the daemon's hand until a
  re-absorb is refused and it is lost (`PacingTheorems.EmptyBlocksStayOrAreRefused`).
- A partial grant submits a whole block, so a run can submit many times burst + rate · elapsed
  (`PacingWitness.PartialGrantsExceedTheRate`); exactly when it does is `PacingTheorems.SubmittedRateExactlyWhen`.
- `get_nodes` with n below one returns one owner (`HashRing.Replicas`).
- A rejected NVMe spill can make an old value visible again (`TierMap.RejectedSpillShowsOldValue`), and the DRAM counter
  only drifts upwards until the store holds one entry at a time (`TierTheorems.DriftEmptiesDram`).
- After a failed gossip every rank that carries load believes it comes last
  (`Nexus.FallbackSeparatesExactlyIdleRanks`).
- The soft absorber credits a sleep again at the next refill (`SoftAbsorberModel.SleepsAreCreditedTwice`); exactly when that
  breaks the rate bound is `SoftAbsorberModel.SingleBoundExactlyWhen`.  A zero rate kills its worker at the first
  block that has to wait, and a shutdown leaves queued blocks unwritten (`SoftAbsorberModel.StopLeavesTheQueue`).
- `min_tokens = 0` sends every token (`SparseTransfer.NoMinimumSendsEverything`), and a sequence no longer than
  `min_tokens` gets no recency guarantee (`SparseTransfer.RecencyExactly`).
- The documented pressure bands are not the code's (`ServiceGain.BandsHoldExactlyWhen`), and a new rate of the Python
  token bucket reaches back to the last refill (`ServiceGain.RateChangesReachBack`, exactly when: `ServiceGain.DrainedWindowExactly`).

## Model

| member | source | states |
|---|---|---|
| SpikeRing.MaskIsModulo | src/spike_absorber/absorber.hpp:51-52 | masking with CAPACITY − 1 picks the slot pos mod CAPACITY |
| SpikeRing.SameSlot | src/spike_absorber/absorber.cpp:50 | two positions less than CAPACITY apart share a slot only if they are equal |
| SpikeRing.Occupant | src/spike_absorber/absorber.cpp:50 | every slot is the slot of exactly one position of the current lap |
| SpikeRingInvariant.InitInv | src/spike_absorber/absorber.cpp:18-28 | slot i starting with sequence number i establishes the invariant |
| SpikeRingInvariant.SeqMeaning | src/spike_absorber/absorber.cpp:51-53 | what comparing a slot's number with a position tells: free, full or stale |
| SpikeRingInvariant.ClaimKeepsInv | src/spike_absorber/absorber.cpp:57-60 | a successful compare-exchange keeps the invariant |
| SpikeRingInvariant.StepKeepsInv | src/spike_absorber/absorber.cpp:47-108 | every atomic step of any producer or of the consumer keeps the invariant |
| SpikeRingTheorems.RunKeepsInv | src/spike_absorber/absorber.cpp:47-108 | the invariant holds in every reachable state |
| SpikeRingTheorems.LogRecordsClaims | src/spike_absorber/absorber.cpp:57-64 | the ghost log is exactly the list of successful claims, in order |
| SpikeRingTheorems.DeliveriesFollowTheLog | src/spike_absorber/absorber.cpp:90-108 | what was taken off the head is, in order, the beginning of that log |
| SpikeRingTheorems.RingIsFifo | src/spike_absorber/absorber.cpp:47-108 | blocks returned by drain are, each once and in order, a prefix of the blocks in order of successful claims |
| SpikeRingTheorems.AcceptedAreTheClaims | src/spike_absorber/absorber.cpp:55-72 | absorb answers true once for each claim of its producer, in program order, and never otherwise |
| SpikeRingTheorems.PayloadIsTheArgument | src/spike_absorber/absorber.cpp:47-64 | what is claimed and reported absorbed is the block the call was given |
| SpikeRingTheorems.CountersAreTheAnswers | src/spike_absorber/absorber.cpp:66-106 | the counters are the numbers of true answers, of false answers, and of blocks drain returned |
| SpikeRingTheorems.SlotOwnership | src/spike_absorber/absorber.cpp:62-104 | no two producers write one slot, the consumer never touches a slot being written, enqueue − dequeue ≤ CAPACITY, plus one only between the consumer's two last stores |
| SpikeRingTheorems.SlotNumbers | src/spike_absorber/absorber.cpp:50-64 | each slot's number is its current position p, or p + 1 exactly when published |
| SpikeRingTheorems.AbsorbFailsOnlyWhenFull | src/spike_absorber/absorber.cpp:75-78 | at its load of the slot number absorb gives up if and only if its position is the enqueue position and the ring is full |
| SpikeRingTheorems.FailureMeansFull | src/spike_absorber/absorber.cpp:47-84 | over all runs: absorb answers false only if the ring was full at some moment of that very call; a lost compare-exchange never leads there |
| SpikeRingTheorems.FailedExchangeReloads | src/spike_absorber/absorber.cpp:57-74 | a compare-exchange that fails, lost or spuriously, only reloads the position, and it fails in no other case |
| SpikeRingTheorems.ProducerFinishes | src/spike_absorber/absorber.cpp:47-84 | from any place in any reachable state, a producer running alone returns: true if it had claimed, else exactly if the ring is not full |
| SpikeRingTheorems.DrainFailsOnlyWhenUnpublished | src/spike_absorber/absorber.cpp:91-97 | drain reports empty if and only if the head is unclaimed or still being written |
| SpikeRingTheorems.EmptyMeansUnpublished | src/spike_absorber/absorber.cpp:90-97 | over all runs: drain reports empty only if the head was unpublished at some moment of that very call |
| SpikeRingTheorems.ConsumerFinishes | src/spike_absorber/absorber.cpp:90-108 | from any place in any reachable state, the consumer running alone returns, with the head block exactly if it is published |
| SpikeRingTheorems.SizeIsBounded | src/spike_absorber/absorber.cpp:114-118 | two loads at different moments never differ by more than CAPACITY + 1 |
| SpikeAbsorberModel.AbsorbAlone | src/spike_absorber/absorber.cpp:47-73 | the steps of an undisturbed absorb form a legal run that ends with one more published block |
| SpikeAbsorberModel.TakeAlone | src/spike_absorber/absorber.cpp:90-107 | the steps of a successful drain form a legal run that takes the head block |
| SpikeAbsorberModel.SpikeAbsorber.constructor | src/spike_absorber/absorber.cpp:18-28 | the array starts as the machine's initial state |
| SpikeAbsorberModel.SpikeAbsorber.Absorb | src/spike_absorber/absorber.cpp:47-84 | succeeds exactly when the ring is not full, from any reachable state and with any spurious failures, and changes the ring as specified |
| SpikeAbsorberModel.SpikeAbsorber.Drain | src/spike_absorber/absorber.cpp:90-108 | returns the head block exactly when it is published, and frees its slot |
| AttentionMonitor.RunKeepsInv | src/attention_monitor/monitor.cu:149-171 | the mutex and wakeup invariant over all interleavings of setters and waiters |
| AttentionMonitor.NoLostWakeup | src/attention_monitor/monitor.cu:149-171 | if a waiter sleeps while the phase is FFN, some setter still owes its notification |
| AttentionMonitor.MutualExclusion | src/attention_monitor/monitor.cu:158-170 | no setter notifies inside a waiter's check-then-sleep section, and no two such sections overlap |
| AttentionMonitor.AnswerIsThePhase | src/attention_monitor/monitor.cu:163-171 | the answer is true exactly when the phase is FFN at the step that gives it |
| AttentionMonitor.TrueMeansFfn | src/attention_monitor/monitor.cu:163-171 | wait_for_ffn returns true only if the phase was FFN at some moment of that call |
| AttentionMonitor.FalseMeansTimedOut | src/attention_monitor/monitor.cu:163-171 | and false only if the deadline passed during that call |
| AttentionMonitor.PhaseIsTheLastExchange | src/attention_monitor/monitor.cu:150 | in every run the phase is the one of the last exchange by any callback, UNKNOWN before the first |
| AttentionMonitor.ExchangeIsTheReport | src/attention_monitor/monitor.cu:149-150 | a callback exchanges in the phase it was called with |
| AttentionMonitor.ReportArrives | src/attention_monitor/monitor.cu:149-150 | from any reachable state a callback that reports a phase leaves it behind |
| AttentionMonitor.CountersAreTheChanges | src/attention_monitor/monitor.cu:151-156 | the counters are the changes to ATTENTION and to FFN, short of those still to be counted |
| AttentionMonitor.SetterFinishes | src/attention_monitor/monitor.cu:149-161 | a callback not kept out by the mutex returns, and one that owes a notification wakes every sleeper |
| AttentionMonitor.WaiterFinishes | src/attention_monitor/monitor.cu:163-171 | a waiting thread not kept out by the mutex answers, at its deadline at the latest, with what the phase is then |
| AttentionMonitor.ClassifyKernel | src/attention_monitor/monitor.cu:79-85 | UNKNOWN for no name; ATTENTION if any attention pattern occurs, even beside an FFN one; FFN if only FFN patterns occur |
| TokenBucketModel.EarnedIsProduct | src/pacing_daemon/token_bucket.hpp:73-74 | tokens earned are rate times elapsed nanoseconds |
| TokenBucketModel.GrantedSomethingExactlyWhen | src/pacing_daemon/token_bucket.hpp:41-49 | a call is granted at least a byte if and only if it wants one and the refilled bucket holds one |
| TokenBucketModel.GrantsArePaid | src/pacing_daemon/token_bucket.hpp:41-80 | grants between two moments are covered by tokens spent and time passed |
| TokenBucketModel.RateBound | src/pacing_daemon/token_bucket.hpp:41-80 | over every window of every run, granted bytes ≤ burst + rate · elapsed |
| TokenBucketModel.TokensAreAccounted | src/pacing_daemon/token_bucket.hpp:41-80 | in every run: first tokens + rate · elapsed = bytes granted + fractions not granted + tokens the burst cut off + tokens left |
| TokenBucketModel.LastIsLatest | src/pacing_daemon/token_bucket.hpp:68-72 | with a clock that does not run back, elapsed is the time between the calls |
| TokenBucketModel.AllOrNoneExactlyWhen | src/pacing_daemon/token_bucket.hpp:43-48 | a call is granted all or nothing if and only if the refilled bucket holds what it wants or less than one byte |
| TokenBucketModel.NothingIsShortExactlyWhen | src/pacing_daemon/token_bucket.hpp:41-49 | over every window, partial grants fall short by nothing if and only if that holds at every call |
| TokenBucketModel.FullGrantsCoverAsked | src/pacing_daemon/token_bucket.hpp:41-49 | bytes acted on equal bytes granted over a window if and only if that holds at every call |
| TokenBucketModel.AnyGrantsCoverAsked | src/pacing_daemon/token_bucket.hpp:41-49 | otherwise they are at most the largest request times the bytes granted |
| TokenBucketModel.TokenBucket.constructor | src/pacing_daemon/token_bucket.hpp:30-36 | the bucket starts full |
| TokenBucketModel.TokenBucket.Refill | src/pacing_daemon/token_bucket.hpp:68-80 | credits elapsed time up to the burst; a clock running back earns nothing |
| TokenBucketModel.TokenBucket.TryConsume | src/pacing_daemon/token_bucket.hpp:41-49 | the new bucket and the whole-byte grant; the grant is full exactly when the tokens suffice |
| PacingTheorems.RunKeepsLink | src/pacing_daemon/pacing_daemon.cpp:205-256 | ring, monitor and daemon program counter stay in step over every run |
| PacingTheorems.OthersMoveFreely | src/pacing_daemon/pacing_daemon.cpp:205-256 | what the other threads can do depends on the ring and the monitor alone, wherever the daemon stands |
| PacingTheorems.GateHoldsExactlyWhen | src/pacing_daemon/pacing_daemon.cpp:209 | the daemon is held back exactly if the gate is strict and the phase is ATTENTION |
| PacingTheorems.WaitEndsWithItsAnswer | src/pacing_daemon/pacing_daemon.cpp:210-214 | a true answer leads to the drain, a false one to a pause and another round |
| PacingTheorems.LaterStepsEndExactlyWhen | src/pacing_daemon/pacing_daemon.cpp:219-243 | the drain, the throttle and the re-absorb each end with what they were answered |
| PacingTheorems.PausesAreFalseAnswers | src/pacing_daemon/pacing_daemon.cpp:211-213 | over every run the pauses are the waits answered false |
| PacingTheorems.AtMostOneBlockAfterStop | src/pacing_daemon/pacing_daemon.cpp:205-243 | after a stop request at most one block is submitted, none if the daemon was at its loop head |
| PacingTheorems.BlocksAreConserved | src/pacing_daemon/pacing_daemon.cpp:148-256 | every accepted block is, with its multiplicity, in the ring, in the daemon's hand, submitted or lost |
| PacingTheorems.LossHasTwoCauses | src/pacing_daemon/pacing_daemon.cpp:152-240 | a step loses the block in hand exactly at a refused re-absorb or when no submission entry is free, and nothing else |
| PacingTheorems.LossesAreCounted | src/pacing_daemon/pacing_daemon.cpp:152-240 | over every run a block is lost exactly as often as its re-absorb was refused or it was given up |
| PacingTheorems.EmptyBlocksAreNeverSubmitted | src/pacing_daemon/pacing_daemon.cpp:230-243 | every submitted block has at least one byte |
| PacingTheorems.EmptyBlocksStayOrAreRefused | src/pacing_daemon/pacing_daemon.cpp:230-240 | an accepted block of no bytes is, with its multiplicity, in the ring, in hand, or lost to refused re-absorbs |
| PacingTheorems.RingRunIsLegal | src/pacing_daemon/pacing_daemon.cpp:205-256 | the daemon's run, seen by the ring, is a legal run of the ring |
| PacingTheorems.AtMostOneBlockPerAttention | src/pacing_daemon/pacing_daemon.cpp:205-243 | with strict gating at most one block is submitted while the phase stays ATTENTION, none if the gate had not been passed |
| PacingTheorems.BucketRunMatches | src/pacing_daemon/pacing_daemon.cpp:230 | the daemon's run, seen by the bucket, ends in the daemon's bucket |
| PacingTheorems.SubmittedIsGranted | src/pacing_daemon/pacing_daemon.cpp:230-243 | with full grants, bytes submitted in a window ≤ bytes granted in it |
| PacingTheorems.SubmittedIsScaledGrant | src/pacing_daemon/pacing_daemon.cpp:230-243 | a partial grant submits the whole block: bytes submitted ≤ largest block · bytes granted |
| PacingTheorems.ThrottleOpensWindow | src/pacing_daemon/pacing_daemon.cpp:230 | every throttle step opens a window of bucket calls that reaches to the end of any longer run |
| PacingTheorems.GrantedRateBound | src/pacing_daemon/pacing_daemon.cpp:230-231 | grants in such a window ≤ burst + rate · elapsed |
| PacingTheorems.SubmittedAccount | src/pacing_daemon/pacing_daemon.cpp:148-243 | in every run: bytes submitted + granted and on their way + given up = bytes granted + shortfall of partial grants |
| PacingTheorems.WindowAccount | src/pacing_daemon/pacing_daemon.cpp:148-243 | the same over every window; the shortfall is zero if and only if every call found all it wanted or not one byte |
| PacingTheorems.SubmittedRateBound | src/pacing_daemon/pacing_daemon.cpp:230-243 | if every call of a window found all it wanted or not one byte, submitted bytes ≤ burst + rate · elapsed |
| PacingTheorems.SubmittedRateExactlyWhen | src/pacing_daemon/pacing_daemon.cpp:230-243 | in every window that bound holds if and only if the shortfall is at most what the allowance has left plus the granted bytes not submitted |
| PacingTheorems.SpentWindowExactly | src/pacing_daemon/pacing_daemon.cpp:230-243 | where the whole allowance was granted and all of it submitted, it holds if and only if no grant was partial |
| PacingTheorems.SubmittedScaledBound | src/pacing_daemon/pacing_daemon.cpp:230-243 | in general, submitted bytes ≤ largest block · (burst + rate · elapsed) |
| PacingWitness.Flood | src/pacing_daemon/pacing_daemon.cpp:205-243 | for every ring size, block size and n a legal run of producer and daemon that submits n + 1 blocks on one full grant and n grants of one byte |
| PacingWitness.HeadIsSubmitted | src/pacing_daemon/pacing_daemon.cpp:205-243 | a published head block is submitted in one round if the gate is open and the bucket has a byte for it |
| PacingWitness.PartialGrantsExceedTheRate | src/pacing_daemon/pacing_daemon.cpp:230-243 | on a ring of any size, with blocks of S bytes, burst S and one byte per nanosecond, S · (n + 1) bytes are submitted against an allowance of S + n |
| HashRing.SortedIsUnique | tempo/p2p_cache.py:96 | there is one ascending list of a set of points |
| HashRing.ClockwiseIsByDistance | tempo/p2p_cache.py:109-113 | the clockwise list has every point once, nearest to the hash first |
| HashRing.OwnersAreByDistance | tempo/p2p_cache.py:112-116 | the owners of a key are ordered by their nearest point |
| HashRing.AddedExactly | tempo/p2p_cache.py:92-96 | after add_node the points of the rank are its own, any other point is whose it was |
| HashRing.RemovedExactly | tempo/p2p_cache.py:98-102 | remove_node takes away exactly the points of the rank, whoever has them |
| HashRing.OwnersAreTheNodes | tempo/p2p_cache.py:104-119 | the full owner list of any key names every node of the ring exactly once |
| HashRing.ReplicasAreTheFirst | tempo/p2p_cache.py:112-119 | the replicas are the first max(n, 1) owners, or all of them |
| HashRing.RemoveUndoesAdd | tempo/p2p_cache.py:92-102 | remove_node restores the ring after add_node if and only if none of the points was taken |
| HashRing.NewRankIsFresh | tempo/p2p_cache.py:92-96 | a rank not on the ring, sharing no point with the ranks on it, has no point taken |
| HashRing.OwnersKeepAPoint | tempo/p2p_cache.py:307-310 | with any hash, the owners of a key on the ring of ranks 0..N−1 are exactly the ranks with a point no later rank took |
| HashRing.OwnersAreTheWorld | tempo/p2p_cache.py:307-310 | if those ranks share no point, and have one, the owners of any key are exactly those ranks |
| HashRing.MinimalMovement | tempo/p2p_cache.py:92-119 | after a fresh node joins, every key's owner list is the old one with the new node inserted |
| HashRing.NextRankMovesTheMinimum | tempo/p2p_cache.py:92-119 | in particular when rank N joins the ring of ranks 0..N−1 and no two of them share a point |
| HashRing.ReplicasChangeByOne | tempo/p2p_cache.py:92-119 | the n replicas of a key lose at most their last member, and only to the new node |
| HashRing.LowerBound | tempo/p2p_cache.py:121-130 | the binary search finds the first point not below the hash |
| HashRing.NodeAt | tempo/p2p_cache.py:113 | the i-th point clockwise, with wraparound, and its owner |
| HashRing.Walk | tempo/p2p_cache.py:110-119 | the walk round the ring returns the first max(n, 1) distinct owners |
| HashRing.ConsistentHashRing.constructor | tempo/p2p_cache.py:87-90 | an empty ring |
| HashRing.ConsistentHashRing.AddNode | tempo/p2p_cache.py:92-96 | the ring with all virtual nodes of the rank added |
| HashRing.ConsistentHashRing.RemoveNode | tempo/p2p_cache.py:98-102 | the ring without the points of the rank |
| HashRing.ConsistentHashRing.Bisect | tempo/p2p_cache.py:121-130 | the index from which the sorted points, wrapped, are the clockwise order from the hash |
| HashRing.ConsistentHashRing.GetNodes | tempo/p2p_cache.py:104-119 | the first max(n, 1) distinct owners clockwise from the key, none on an empty ring |
| TierStore.VictimIsLru | tempo/p2p_cache.py:229 | eviction picks a least recently accessed entry, the oldest inserted among equals |
| TierStore.Evicted | tempo/p2p_cache.py:226-238 | eviction ends with the bytes fitting or DRAM empty, and only removes keys |
| TierStore.FindVictim | tempo/p2p_cache.py:229 | the loop over the dictionary finds that entry |
| TierStore.LocalTierStore.constructor | tempo/p2p_cache.py:151-172 | an empty store over the files already in the directory |
| TierStore.LocalTierStore.Pop | tempo/p2p_cache.py:230-231 | the victim is out of DRAM and off the counter |
| TierStore.LocalTierStore.SpillVictim | tempo/p2p_cache.py:229-238 | one eviction: the victim leaves DRAM and, if NVMe has room, is written and indexed |
| TierStore.LocalTierStore.EvictDramIfNeeded | tempo/p2p_cache.py:226-238 | the eviction loop terminates in the specified state |
| TierStore.LocalTierStore.PutEntry | tempo/p2p_cache.py:175-183 | the whole new state of a put |
| TierStore.LocalTierStore.GetEntry | tempo/p2p_cache.py:185-210 | answer and whole new state of a get, with promotion from NVMe |
| TierStore.LocalTierStore.Evict | tempo/p2p_cache.py:385-389 | the DRAM entry is gone, the counter is not adjusted |
| TierUse.SpillIsIndexedExactlyWhen | tempo/p2p_cache.py:229-238 | a victim is indexed, and its file written, exactly if NVMe has room for its size; nothing else changes |
| TierUse.EvictsTheLeastRecent | tempo/p2p_cache.py:226-238 | no entry an eviction takes was accessed later than one it keeps |
| TierUse.EvictsNoMoreThanNeeded | tempo/p2p_cache.py:227 | eviction takes nothing if the bytes fit, and without the last entry taken they did not |
| TierUse.AccessIsLastUse | tempo/p2p_cache.py:180-193 | in every run each DRAM entry carries the clock reading of the last put of its key or get that found it |
| TierUse.EvictsTheLeastRecentlyUsed | tempo/p2p_cache.py:226-238 | so after any run eviction takes the keys whose last use is longest ago |
| TierUse.OrderIsByEntry | tempo/p2p_cache.py:181-203 | in every run the dictionary lists the keys in the order in which they came into DRAM, which breaks ties |
| TierUse.SizesAreTrue | tempo/p2p_cache.py:178-202 | in every run the recorded sizes are the lengths of the data |
| TierUse.HitsMoveToDram | tempo/p2p_cache.py:188-208 | a get that finds its key leaves it in DRAM with what was read, off the NVMe index and its counter |
| TierTheorems.SpilledBytes | tempo/p2p_cache.py:229-238 | a spill keeps the DRAM drift and adds the size of a replaced NVMe entry to the NVMe drift |
| TierTheorems.StepBytes | tempo/p2p_cache.py:175-238 | each call keeps the budgets and moves the drift by exactly the overwritten or dropped entry |
| TierTheorems.BudgetsHold | tempo/p2p_cache.py:175-238 | in every run: DRAM counter = resident bytes + bytes overwritten in place or dropped; limit ≥ NVMe counter ≥ indexed bytes ≥ 0; residents fit or are alone |
| TierTheorems.DriftEmptiesDram | tempo/p2p_cache.py:181-227 | once the drift exceeds the DRAM limit every put leaves only its own entry in DRAM |
| TierMap.StepBacked | tempo/p2p_cache.py:240-256 | with working I/O and no two of the store's keys sharing a file, indexed entries and their files agree after every call |
| TierMap.KeptExactlyWhenSafe | tempo/p2p_cache.py:226-238 | eviction keeps a key's value if and only if its spill fits or NVMe already has the same bytes |
| TierMap.StepAgrees | tempo/p2p_cache.py:175-210 | a store that agrees with a map agrees after a call if and only if the call's spills are safe and a dropped key has no NVMe copy |
| TierMap.RoomIsEnough | tempo/p2p_cache.py:234 | an NVMe budget with room for everything in DRAM makes every spill safe |
| TierMap.AgreesExactlyWhenSafe | tempo/p2p_cache.py:175-238 | a run agrees with the map of its calls at every moment if and only if every call of it was safe |
| TierMap.TheStoreIsAMap | tempo/p2p_cache.py:175-238 | after any safe run a get answers the last value put under its key, or nothing |
| TierMap.HitsWereOncePut | tempo/p2p_cache.py:185-210 | in any run, with rejected spills and drops, a hit was once put under that key |
| TierMap.WriteOnceHitsAreRight | tempo/p2p_cache.py:185-210 | so with keys written with one value, every hit is right |
| TierMap.RejectedSpillShowsOldValue | tempo/p2p_cache.py:234-238 | four puts after which a get answers the older value although all I/O worked |
| P2PCache.PutIsVisible | tempo/p2p_cache.py:332-350 | after a put with a local owner the local store shows the value |
| P2PCache.LastPutIsTheLastLocal | tempo/p2p_cache.py:338-342 | the last local put is the one made for the last local owner |
| P2PCache.ReportSplits | tempo/p2p_cache.py:337-350 | the report goes through the owners in their order |
| P2PCache.ReportedExactlyWhen | tempo/p2p_cache.py:337-350 | a rank is reported exactly if it is this one and some owner is local, or an owner elsewhere that was reached |
| P2PCache.ReportedOnce | tempo/p2p_cache.py:337-350 | every owner but those not reached is reported once |
| P2PCache.HitExactlyWhen | tempo/p2p_cache.py:352-371 | a get answers exactly if some owner has the key |
| P2PCache.PutLeavesOthers | tempo/p2p_cache.py:332-350 | and no other key's last value changes |
| P2PCache.ReplicasAreChargedAgain | tempo/p2p_cache.py:338-344 | in simulation mode each replica after the first adds the data's size to the drift of the DRAM counter |
| P2PCache.P2PCacheStore.constructor | tempo/p2p_cache.py:287-310 | an empty local store, and a ring of exactly the ranks 0..world_size−1 |
| P2PCache.P2PCacheStore.PutOwners | tempo/p2p_cache.py:340-350 | one local put per local owner, in order, and the list of ranks reported |
| P2PCache.P2PCacheStore.PutKey | tempo/p2p_cache.py:332-350 | the same for the owners of the key; afterwards the local store shows the value if this rank is an owner or in simulation mode, and is untouched otherwise |
| P2PCache.P2PCacheStore.AskOwners | tempo/p2p_cache.py:359-371 | the first owner that has the key answers; misses change nothing |
| P2PCache.P2PCacheStore.GetKey | tempo/p2p_cache.py:352-371 | the same for the owners of the key; it answers if and only if some owner has it |
| P2PCache.P2PCacheStore.EvictKey | tempo/p2p_cache.py:385-389 | drops the key locally exactly if this rank is an owner or in simulation mode |
| CheckpointFlush.ReadSize | tempo/checkpoint_manager.py:375 | a read returns the chunk or what is left of the file, whichever is less; for −1 all that is left |
| CheckpointFlush.Clamp | tempo/checkpoint_manager.py:313-316 | the adaptive chunk is the size in [4 MiB, 512 MiB] nearest to the target |
| CheckpointTheorems.GateFollowsPhase | tempo/phase_monitor.py:187-234 | whenever the lock is free, the gate is open if and only if the phase is not NCCL_COMM |
| CheckpointTheorems.AtMostOneChunkWhileClosed | tempo/checkpoint_manager.py:319-375 | while the gate stays closed the worker begins at most one chunk, over all interleavings |
| CheckpointTheorems.StepKeepsInv | tempo/checkpoint_manager.py:139-411 | every step of saver, worker and phase setters keeps the file invariant |
| CheckpointTheorems.NoCheckpointIsLost | tempo/checkpoint_manager.py:139-411 | in every reachable state a saved checkpoint is whole on NVMe or Lustre, and the local file is missing only after the rename |
| CheckpointTheorems.DestinationIsOldOrWhole | tempo/checkpoint_manager.py:286-388 | a Lustre file is what it was, or byte for byte the saved checkpoint |
| CheckpointTheorems.EmptyChunksLose | tempo/checkpoint_manager.py:375-411 | with chunk size zero the flush of any non-empty checkpoint leaves an empty file and no source |
| CheckpointTheorems.LossExactlyWithEmptyChunks | tempo/checkpoint_manager.py:375-411 | some run loses a checkpoint if and only if flushing is configured with chunk size zero |
| CheckpointHistory.SavedIsTheArgument | tempo/checkpoint_manager.py:139-168 | in every run a saved checkpoint is the data its save was given |
| CheckpointHistory.FateIsTheLastEvent | tempo/checkpoint_manager.py:170-411 | a checkpoint is queued, refused, given up or flushed as the last event of its step in the run says |
| CheckpointHistory.JobsAreFifo | tempo/checkpoint_manager.py:179-258 | in every run jobs are taken in the order they were queued, each once; only those that found room are queued |
| CheckpointHistory.HandAndQueue | tempo/checkpoint_manager.py:179-259 | the worker has the job taken last; no more jobs wait than are allowed |
| CheckpointHistory.AtMostOneJobAfterStop | tempo/checkpoint_manager.py:253-259 | after a stop request the worker takes at most one more job, and none once it has ended |
| CheckpointHistory.WaitingWorkerStops | tempo/checkpoint_manager.py:253-341 | a stop request reaches a worker that waits for a job or at a closed gate: it ends and has touched no file |
| CheckpointHistory.WorkerEndsOnlyOnRequest | tempo/checkpoint_manager.py:253-264 | the worker ends only on request; no failure of a file operation ends it |
| CheckpointHistory.FailureLeavesFiles | tempo/checkpoint_manager.py:258-264 | a failure at any point of a flush costs the job and nothing else |
| CheckpointHistory.SaveFinishes | tempo/checkpoint_manager.py:139-187 | a save that does not fail can finish, and its checkpoint is then the data it was given |
| CheckpointHistory.ChunkIsTheLastTarget | tempo/checkpoint_manager.py:312-316 | in every run the chunk size is the configured one until the first adaptation, then the last target within the limits |
| CheckpointHistory.AdaptsBetweenChunks | tempo/checkpoint_manager.py:299-316 | after its first chunk an adaptive flush can take any size within the limits |
| CheckpointHistory.CopiesOneChunk | tempo/checkpoint_manager.py:375-380 | a read takes one chunk or the rest, and the write appends exactly those bytes |
| CheckpointHistory.AdmittedExactlyWhen | tempo/checkpoint_manager.py:328-341 | a positive rate admits the next chunk whatever the gate does next; a zero rate makes it wait for the gate |
| CheckpointHistory.PhaseIsTheLastSet | tempo/phase_monitor.py:187-234 | whenever the lock is free the phase is the argument of the last set_phase |
| CheckpointHistory.SetterFinishes | tempo/phase_monitor.py:187-234 | whoever holds the lock gives it back after at most three steps |
| CheckpointHistory.FlushAdvances | tempo/checkpoint_manager.py:296-411 | with the gate open every step of a flush brings it nearer to its end, the removal of the source |
| CheckpointHistory.EveryJobIsFlushed | tempo/checkpoint_manager.py:251-411 | whatever happened before: with the gate open and no stop the worker alone brings every job to Lustre, whole, and removes the local files |
| CheckpointManagerModel.CheckpointManager.constructor | tempo/checkpoint_manager.py:85-130 | an empty queue over the given files |
| CheckpointManagerModel.CheckpointManager.SaveAsync | tempo/checkpoint_manager.py:139-187 | the local file is written; the job is queued exactly if there is a Lustre directory and room |
| CheckpointManagerModel.CheckpointManager.CopyChunks | tempo/checkpoint_manager.py:296-385 | the temporary file is always a part of the source; the loop ends at its end, or at once for chunk size zero, and earlier only if interrupted; the chunk size is the last resize within the limits |
| CheckpointManagerModel.CheckpointManager.DoFlush | tempo/checkpoint_manager.py:267-411 | for any adaptive chunk sizes: all bytes under the final name and the source gone, unless the source is missing or something interrupts; then only a partial temporary file |
| CheckpointManagerModel.CheckpointManager.FlushNext | tempo/checkpoint_manager.py:253-264 | the oldest job is taken and flushed unless interrupted; a job that does not finish changes only temporary files |
| PhaseMonitorModel.GateIsThePhase | tempo/phase_monitor.py:187-234 | after any calls the gate is open if and only if the phase is not NCCL_COMM |
| PhaseMonitorModel.WindowHoldsTheLast | tempo/phase_monitor.py:205-208 | the window holds exactly the durations of the last sixteen collectives |
| PhaseMonitorModel.TotalsAreTheSums | tempo/phase_monitor.py:196-203 | the totals are the sums of all completed NCCL and compute stays |
| PhaseMonitorModel.TotalsFitTheClock | tempo/phase_monitor.py:194-203 | with a monotone clock the two totals never exceed the time passed |
| PhaseMonitorModel.EmaStaysInRange | tempo/phase_monitor.py:209-213 | the smoothed duration lies between the shortest and the longest collective |
| PhaseMonitorModel.EmaFollowsCollectives | tempo/phase_monitor.py:209-213 | the first collective sets it, each later one moves it three tenths of the way towards its own duration, nothing else changes it |
| PhaseMonitorModel.FlushRateLeavesRoom | tempo/phase_monitor.py:118-165 | for every ceiling: the rate is within the request, zero in collectives, and with NCCL and margin within the ceiling; equal to it when throttled; nothing for a negative ceiling |
| PhaseMonitorModel.EstimateMovesTheTypicalTensor | tempo/phase_monitor.py:155-160 | a known bandwidth is taken as it is; otherwise estimate · smoothed duration = 256 MiB, nothing before the first collective |
| PhaseMonitorModel.FlushRateIsTheRoom | tempo/phase_monitor.py:150-165 | the rate in full, for every request, bandwidth, ceiling and margin: nothing in a collective, else the request or the room left, whichever is less |
| PhaseMonitorModel.RateIsZeroExactlyWhen | tempo/phase_monitor.py:150-165 | the worker's rate is zero if and only if a collective runs or the smoothed duration is positive and at most 268435456 / 57600000 ms |
| PhaseMonitorModel.PhaseMonitor.constructor | tempo/phase_monitor.py:62-87 | idle, gate open |
| PhaseMonitorModel.PhaseMonitor.EndCollective | tempo/phase_monitor.py:200-214 | duration, window, total and estimate at the end of a collective, and the gate opened |
| PhaseMonitorModel.PhaseMonitor.SetPhase | tempo/phase_monitor.py:187-234 | the object follows the history of calls |
| Nexus.GossipSharesLoads | tempo/nexus_coordinator.py:288-300 | after the all-reduce MAX all ranks hold each load, negative ones as zero if there are two ranks or more |
| Nexus.SortedAscends | tempo/nexus_coordinator.py:307 | the stable sort orders ranks by load, ties by rank |
| Nexus.PositionsFollowLoads | tempo/nexus_coordinator.py:307-308 | one rank's position is lower than another's if and only if its load is lower, or equal and its number lower |
| Nexus.PositionsArePermutation | tempo/nexus_coordinator.py:307-308 | every position 0..N−1 belongs to exactly one rank |
| Nexus.LessLoadedFlushFirst | tempo/nexus_coordinator.py:288-308 | with gossip and non-negative loads, the less loaded rank flushes first |
| Nexus.FallbackPosition | tempo/nexus_coordinator.py:301-308 | a rank alone with its load takes the last, its own or the first position as the load is positive, zero or negative |
| Nexus.GossipSeparatesRanks | tempo/nexus_coordinator.py:288-308 | with gossip no two ranks share a position |
| Nexus.FallbackSeparatesExactlyIdleRanks | tempo/nexus_coordinator.py:301-308 | without gossip positions are distinct if and only if every rank before the last is idle |
| Nexus.AtMostKActive | tempo/nexus_coordinator.py:310-313 | at any instant at most K positions are inside their windows, for any K with K(1 − f) ≥ 1 |
| Nexus.KActiveHappens | tempo/nexus_coordinator.py:310-313 | and that many are at once if K − 1 slots do not cover a window |
| Nexus.WindowsTile | tempo/nexus_coordinator.py:310-313 | without overlap the windows tile [0, N·w): exactly one active inside, none outside |
| Nexus.WindowFor | tempo/nexus_coordinator.py:305-323 | the window carries the position, the estimate, and a delay of position · estimate · (1 − f) milliseconds |
| Nexus.AtMostKRanksFlush | tempo/nexus_coordinator.py:281-313 | after a gossip with equal estimates at most K ranks flush at any instant, each waiting the delay it was given |
| Nexus.RanksTile | tempo/nexus_coordinator.py:281-313 | with f = 0 and the delays the ranks are given, exactly one rank flushes at each moment of [0, N·w), none outside |
| Nexus.EstimatesMustAgree | tempo/nexus_coordinator.py:310-313 | for any two positions, estimates and overlap: the windows are disjoint if and only if one ends before the other begins |
| Nexus.DisjointWithoutOverlap | tempo/nexus_coordinator.py:310-313 | with f = 0 that is (p + 1)·w_p ≤ q·w_q or (q + 1)·w_q ≤ p·w_p |
| Nexus.EmaIsBounded | tempo/nexus_coordinator.py:341-357 | the estimate stays within [min(init, 50), max(init, 2000)] after any history |
| Nexus.EstimatesConverge | tempo/nexus_coordinator.py:353-356 | ranks recording the same flush times shrink their difference by 0.75 each time |
| Nexus.EstimateMovesAQuarter | tempo/nexus_coordinator.py:351-356 | a flush time moves the estimate a quarter of the way towards it, counted as 50 ms if shorter and as 2000 ms if longer |
| Nexus.NexusCoordinator.constructor | tempo/nexus_coordinator.py:217-247 | first estimate, no history, zero tensor |
| Nexus.NexusCoordinator.ComputeWindow | tempo/nexus_coordinator.py:256-327 | tensor, position, estimate, delay in seconds and loads for a successful and a failed gossip |
| Nexus.NexusCoordinator.RecordFlushTime | tempo/nexus_coordinator.py:341-357 | the smoothed estimate and the recorded time |
| SoftAbsorberModel.WritesFollowAbsorbs | tempo/lmcache_connector.py:111-145 | absorbed blocks are, in call order, written, in the worker's hand, or queued |
| SoftAbsorberModel.LogsAreTheCalls | tempo/lmcache_connector.py:111-115 | every argument of absorb is accepted, in order; the clock is the last reading |
| SoftAbsorberModel.AtMostOneBlockAfterStop | tempo/lmcache_connector.py:124-132 | after a shutdown request the worker takes at most one more block |
| SoftAbsorberModel.EndedWorkerWritesNothing | tempo/lmcache_connector.py:124-145 | once it has ended nothing more is written |
| SoftAbsorberModel.StopLeavesTheQueue | tempo/lmcache_connector.py:124-129 | asked to stop between two blocks it ends and leaves the queue unwritten |
| SoftAbsorberModel.TokensHaveAFloor | tempo/lmcache_connector.py:134-144 | tokens stay within [min(0, burst − largest block), burst] |
| SoftAbsorberModel.TokensStayInTheBucket | tempo/lmcache_connector.py:134-144 | they never go negative if every block fits into a burst |
| SoftAbsorberModel.SleepIsTheQuotient | tempo/lmcache_connector.py:141 | sleeping size / rate is sleeping until size bytes are earned |
| SoftAbsorberModel.AccountIsExact | tempo/lmcache_connector.py:134-144 | bytes paid + tokens + bytes the burst cut off = burst + rate · (time to the last refill) + rate · (time slept) |
| SoftAbsorberModel.SleepsAreExtra | tempo/lmcache_connector.py:117-145 | bytes written ≤ max(burst, largest block) + rate · (time to the last refill + time slept) |
| SoftAbsorberModel.WrittenBytesAreBounded | tempo/lmcache_connector.py:117-145 | after time T at most max(burst, largest block) + 2 · rate · T bytes are written |
| SoftAbsorberModel.SingleBoundExactlyWhen | tempo/lmcache_connector.py:134-144 | in every run, bytes paid ≤ burst + rate · T if and only if what the sleeps before the last refill earned is still in the bucket or was cut off |
| SoftAbsorberModel.RefillIsDueExactlyWhen | tempo/lmcache_connector.py:134-137 | a refill credits no time twice if and only if the turn before did not sleep or the bucket fills anyway |
| SoftAbsorberModel.DueRunsKeepTheRate | tempo/lmcache_connector.py:124-145 | if that holds for every refill, bytes written ≤ max(burst, largest block) + rate · T |
| SoftAbsorberModel.PromptRunsKeepTheRate | tempo/lmcache_connector.py:139-142 | in particular while every refill finds the tokens its block needs |
| SoftAbsorberModel.BurstOverRateFills | tempo/lmcache_connector.py:119-121 | every positive rate earns the burst in burst / rate |
| SoftAbsorberModel.SleepsAreCreditedTwice | tempo/lmcache_connector.py:139-142 | for every positive rate and burst a run with blocks of a burst writes burst · (1 + 2n) bytes in n such times, the doubled bound with equality |
| SoftAbsorberModel.TurnAsSteps | tempo/lmcache_connector.py:124-145 | one turn of the worker as a legal run, with its effect: paid at once, after a sleep, or killed by a zero rate |
| SoftAbsorberModel.SoftAbsorber.constructor | tempo/lmcache_connector.py:119-122 | a full bucket, an empty queue |
| SoftAbsorberModel.SoftAbsorber.Absorb | tempo/lmcache_connector.py:111-115 | appends at the tail |
| SoftAbsorberModel.SoftAbsorber.Settle | tempo/lmcache_connector.py:134-144 | tokens after refill, sleep and payment, or the division by a zero rate |
| SoftAbsorberModel.SoftAbsorber.ServeOne | tempo/lmcache_connector.py:124-145 | the oldest block goes to the backing store, paid as in the machine; a zero rate ends the worker and loses the block |
| SparseTransfer.Softmax | tempo/sparse_transfer.py:331-335 | weights are the exponentials over their sum: non-negative, sum to one, same order |
| SparseTransfer.MaxCount | tempo/sparse_transfer.py:350 | the cap is min_tokens, or the whole part of max_ratio · n if that is more |
| SparseTransfer.FewTokensAreHot | tempo/sparse_transfer.py:347 | at most floor(1/τ) tokens reach the threshold |
| SparseTransfer.TopAreHot | tempo/sparse_transfer.py:351-355 | if the cap cuts, every token kept reaches the threshold |
| SparseTransfer.CappedIsHotAndBest | tempo/sparse_transfer.py:346-355 | before recency at most min(floor(1/τ), max_count) tokens, all hot; every hot one if fewer than max_count, and else none left out outscores one kept |
| SparseTransfer.SelectionIsSmall | tempo/sparse_transfer.py:346-361 | at most max_count + min_tokens tokens are sent |
| SparseTransfer.SentExactlyWhen | tempo/sparse_transfer.py:357-361 | a token is sent if and only if chosen by score or in the tail; the indices ascend |
| SparseTransfer.RecencyExactly | tempo/sparse_transfer.py:357-359 | the last min(m, n) tokens are all sent if and only if n > m or all are hot |
| SparseTransfer.NoMinimumSendsEverything | tempo/sparse_transfer.py:357-359 | min_tokens = 0 sends every token |
| SparseTransfer.WhereLists | tempo/sparse_transfer.py:361 | the mask's positions, all of them, ascending |
| SparseTransfer.TopTokens | tempo/sparse_transfer.py:353 | some k tokens that no other outscores |
| SparseTransfer.MarkHot | tempo/sparse_transfer.py:347-351 | the threshold mask and its count |
| SparseTransfer.SelectHot | tempo/sparse_transfer.py:337-361 | the selection over a mask array is the specified one |
| SparseTransfer.RoundTrip | tempo/sparse_transfer.py:188-260 | reconstructing a packed tensor gives its rows at the hot indices and the fill elsewhere |
| SparseTransfer.RoundTripIsExactWhen | tempo/sparse_transfer.py:238-260 | it gives the tensor back if and only if every dropped row equals the fill |
| SparseTransfer.BlockRoundTrip | tempo/sparse_transfer.py:188-260 | a packed block gives back both tensors in this way, at full length |
| SparseTransfer.BlockIs | tempo/sparse_transfer.py:188-216 | its fields: rows, indices, length, layer, and (1 − reduction) · n = rows sent |
| SparseTransfer.PackUndoesUnpack | tempo/sparse_transfer.py:188-260 | packing a reconstructed tensor gives the packed rows back |
| SparseTransfer.Spread | tempo/sparse_transfer.py:256-259 | filling and scattering into an array |
| SparseTransfer.Reconstruct | tempo/sparse_transfer.py:238-260 | both tensors |
| SparseTransfer.SparseTransferFilter.constructor | tempo/sparse_transfer.py:124-141 | counters at zero |
| SparseTransfer.SparseTransferFilter.Filter | tempo/sparse_transfer.py:147-216 | the block packs K and V at the selected indices of the softmax weights; the counters add up |
| ServiceGain.SeverityIsMonotone | tempo/service_gain.py:420-441 | the decision is never more severe for fewer bytes, longer window, less NCCL, more idle rails and higher ceiling, all at once |
| ServiceGain.DecisionExactlyWhen | tempo/service_gain.py:420-441 | the decision as inequalities between bandwidth, NCCL, ceiling and idle rails, each an if and only if |
| ServiceGain.DecisionCarries | tempo/service_gain.py:420-441 | its parameter: the bandwidth that moves the bytes in the window, 85 % of what NCCL leaves, or the delay |
| ServiceGain.PressureIs | tempo/service_gain.py:356-418 | pressure against 0.9 and 1.5, and the default ceiling, without the division |
| ServiceGain.DelayIsTheDeficit | tempo/service_gain.py:434-439 | the delay in full: missing bandwidth over the decay, 1 ms if that is shorter, 50 ms if longer |
| ServiceGain.DecayIsPerMillisecond | tempo/service_gain.py:437 | the decay is NCCL over the milliseconds of the window, one at least of either |
| ServiceGain.RateLeavesRoom | tempo/service_gain.py:420-441 | proceed and rate_limit leave rate + NCCL within the ceiling; delays lie in [1, 50] ms; defer means pressure ≥ 1.5 |
| ServiceGain.DelayFreesTheDeficit | tempo/service_gain.py:434-439 | a delay inside its limits times the decay rate is exactly the missing bandwidth |
| ServiceGain.DelayGrowsWithBytes | tempo/service_gain.py:434-439 | more bytes never shorten the delay |
| ServiceGain.BandsHoldExactlyWhen | tempo/service_gain.py:331-441 | the documented bands hold if and only if fitting the rails coincides with pressure below 1.10 |
| ServiceGain.OneRailFits | tempo/service_gain.py:422-431 | with one idle rail a flush fits if and only if the pressure is at most one |
| ServiceGain.SevereButLimited | tempo/service_gain.py:429-433 | a request at pressure 1.6 that is limited, not deferred |
| ServiceGain.GrantsArePaid | tempo/service_gain.py:282-311 | grants are covered by tokens spent and time at the highest rate set |
| ServiceGain.WindowIsBounded | tempo/service_gain.py:282-311 | over every window granted bytes ≤ capacity + max rate · elapsed under any rate changes |
| ServiceGain.RefillIsDueExactlyWhen | tempo/service_gain.py:307-311 | a refill credits no more than the rate in force has earned since the last one if and only if the rate is at most its average since then or the bucket fills first |
| ServiceGain.RateInForceBounds | tempo/service_gain.py:282-311 | if every refill of a window is so, granted bytes ≤ capacity + the integral of the rate in force |
| ServiceGain.CarefulIsDue | tempo/service_gain.py:282-311 | lowering the rate, or raising it only at the moment of a refill, keeps every refill so |
| ServiceGain.DrainedWindowExactly | tempo/service_gain.py:282-311 | after a pass that took a full bucket, any rate changes and a caller that takes all: the bound holds if and only if that refill is so |
| ServiceGain.RateChangesReachBack | tempo/service_gain.py:282-311 | a drained bucket idles at rate zero until t; a raise at t that would have filled it since 0 fills it, so twice the capacity is granted while the rate in force earned nothing |
| ServiceGain.NewBucket | tempo/service_gain.py:274-278 | the bucket starts full; a capacity of zero counts as not given and becomes a tenth of the rate |
| ServiceGain.TokenBucket.constructor | tempo/service_gain.py:274-280 | that bucket |
| ServiceGain.TokenBucket.SetTheRate | tempo/service_gain.py:282-285 | the rate changes, nothing is refilled |
| ServiceGain.TokenBucket.TryOnce | tempo/service_gain.py:295-298 | one pass under the lock: refill, then take all or nothing |
| ServiceGain.TokenBucket.Acquire | tempo/service_gain.py:287-305 | passes until granted or past the deadline, never beyond either; n bytes are granted exactly if it says so |

## Left out

- SpikeAbsorberModel.SpikeAbsorber.Absorb: runs undisturbed once called; interference between its steps is in the step machine only.
- SpikeAbsorberModel.SpikeAbsorber.Drain: runs undisturbed once called; producers between its steps are in the step machine only.
- ServiceGain.TokenBucket.SetTheRate: rates are non-negative.
- SoftAbsorberModel.SoftAbsorber.constructor: the configured rate is non-negative.
- ServiceGain.TokenBucket.Acquire: nobody else calls between its passes; interference is in the runs of `Try` and `SetRate`.
- SparseTransfer.SelectHot: `max_ratio` is taken non-negative and `min_tokens` non-negative, as documented.
- SoftAbsorberModel.SoftAbsorber.ServeOne: one undisturbed turn of the worker; callers between its steps and a shutdown are in the step machine only.
- CheckpointManagerModel.CheckpointManager.CopyChunks: the only interference is `pace`, before a read; savers, phases and failures between other steps are in the step machine only.
- CheckpointTheorems.NoCheckpointIsLost: one save per step number, and file operations either work or raise; a crash inside `torch.save` leaves a checkpoint that was never saved.
- TierMap.TheStoreIsAMap: no two keys put in the run share a file name, and NVMe I/O works; when it fails the byte budgets still hold (`TierTheorems.BudgetsHold`).
- A fair scheduler: that threads finish is stated for a thread, or the flush worker, that is left alone from any reachable state.
- C++ weak memory orderings, 64-bit wrap-around of positions and IEEE rounding.
- The daemon is a step machine and not a class: its loop shares ring, monitor and bucket with other threads at every step.
- io_uring completions, eventfd, sleeping and waking for new blocks, O_DIRECT offsets.
- CUPTI subscription and the choice of callbacks; `classify_kernel` is modelled.
- The key of a block, its layer and its destination tier beyond being carried along.
- The sockets of the peer-to-peer cache and the serving side, which is not part of the source; what a peer answers is an input.
- Concurrent callers of one two-tier store: it holds one lock for each call, so calls are atomic.
- `get_or_put`, hit counters and statistics everywhere.
- `save_sync_lustre`, byte counters and the idle-rail hint of the checkpoint manager; the adaptive target is an arbitrary integer.
- Callbacks and context managers of the phase monitor, and re-entrant phase changes from a callback.
- Per-layer CUDA gates of the Nexus coordinator, and `wait_for_window`, which sleeps.
- An exception in the backing store of the soft absorber, which ends its worker, and the C backend.
- The probe query and the logits of the sparse filter; only their exponentials enter.
- `predict_kv_bytes`, `estimate_reduction` and `ServiceGainScheduler`, whose gain uses `exp`.
- The schedulers V1 to V6, routers, trace loaders, GPU-driven and libfabric paths, scripts and evaluation code.
