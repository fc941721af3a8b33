# Causal replication, membership and framing: a verified model

This project models the parts of the distributed runtime that decide whether replicated data,
cluster membership and message streams are correct, and proves what they promise over every
input and every run.

* **Causal CRDT replication.** Nodes hold one entry per key: a CRDT state, the version that
  describes it, and a causal context. Mutations take a fresh dot from the node's clock, commit
  (through SQLite on durable nodes) and spread by replication, causal repair and digest-driven
  anti-entropy. Everything rests on one invariant of the whole system: *a state is exactly the
  meaning of the committed mutations its version covers*. `Protocol` proves it for every run of
  nodes that boot, mutate, exchange messages over a network that may lose, repeat, delay and
  reorder them, crash between any two steps and restart. Convergence, crash recovery and the
  meaning of the four data types follow.
* **The replication outbox.** A bounded queue that keeps only the newest state per peer and key,
  used by concurrent writers and workers (`Outbox`, `OutboxRuns`).
* **SWIM-style membership.** Records merged by incarnation and severity, self-refutation,
  suspicion and tombstone timers, and a network of tables (`Membership`, `MemberMerge`,
  `MembershipRuns`, `MembershipNetwork`).
* **The consistent-hash ring** and the cache that keeps it in step with the table (`Ring`,
  `RingCache`).
* **The frame decoder** under arbitrary chunking (`Framing`) and **the durable encoding** of
  entries (`Codec`).

Code that updates objects in place is modelled by classes whose methods are proved against
functions on values; the step systems are built from the same functions.

`dafny verify dfyconfig.toml` checks everything.

## Modules

| file | models |
|---|---|
| `Outcomes.dfy`, `Order.dfy` | options, errors; string order and sorting |
| `Causal.dfy`, `Crdt.dfy` | version vectors, dots; the four CRDTs |
| `History.dfy` | the log of committed mutations and what a version means |
| `Storage.dfy`, `Replica.dfy` | entries, their merge, the in-memory store; good entries |
| `Node.dfy` | clock, durable commit, recovery |
| `Protocol.dfy` | the replication step system and its invariant |
| `Sessions.dfy`, `SessionRuns.dfy`, `StaleRead.dfy` | causal repair and request paths; client sessions over protocol runs; a stale read |
| `AntiEntropy.dfy`, `Convergence.dfy` | digests and reconciliation of two replicas; of two nodes of a run |
| `Outbox.dfy`, `OutboxRuns.dfy` | the outbox and its interleavings |
| `Membership.dfy`, `MemberMerge.dfy`, `MembershipRuns.dfy`, `MembershipNetwork.dfy` | the table, merge laws, timers over runs, the network of tables |
| `Ring.dfy`, `RingCache.dfy` | placement of keys; the cached ring |
| `Framing.dfy`, `Codec.dfy` | frames over a byte stream; JSON trees of stored entries |

## Assumptions

* A causal actor (node id and incarnation) is used by one node at a time, and a node without a
  database that starts again takes a new incarnation. A durable node keeps its actor.
* A node that starts again takes a membership incarnation above those it has used.
* One SQLite transaction is atomic. A task cancelled in the middle of a commit counts as a crash.
* The key lock and the clock lock make the critical section of a mutation one step; the code
  between two suspension points is one step.
* SHA-256, JSON text and protobuf are parameters. Nothing is assumed of the hash, except where a
  statement says it does not collide; of protobuf only
  that it gives back the envelope of the message in question, where the statement says so.
* A peer asked for a key answers with the entry of that key, as a store files entries under their
  own keys.
* Clock readings are parameters of type `real`.
* The membership service starts its table with its own record ALIVE, as its only caller does; the
  constructor itself accepts any record.

One CRDT type per key is *not* assumed: the log is read per key and type, and entries of two types
for one key simply refuse to merge.

## Where the code falls short of what is said about it

* **Read-your-writes and monotonic reads** (`docs/design/phase4-causal-crdt.md`, line 190) do not hold
  in general. A context records what was heard of on any key, and repair raises it by peers' frontiers, so a
  context can dominate a session's token while the state lacks what the session wrote and read.
  `StaleRead.OwnWriteCanBeMissing` is such a run; `Sessions.ReadDelivers` says exactly which writes a
  served entry shows. What sessions do get, in every run, is `SessionRuns.EveryResponseServed` and
  `SessionRuns.SessionMonotone`.
* **Chunking invariance** fails when good frames precede a bad one in the same chunk: they are
  decoded and then lost with the exception. `Framing.ChunkingInvariantIff` gives the exact condition.
* **Digest responses are cut** to the length of the request, or one: `AntiEntropy.ShownComplete` says
  exactly when such a response is complete. Rounds are proved for complete digests.
* **A publish that raises** half-way leaves exactly the sleeping pairs before the failing one
  marked as queued without queueing them (`Outbox.FailedPublishStrands`), and nothing the outbox does
  later frees them (`Outbox.StuckForGood`). Publishing one reservation twice gets there
  (`Outbox.PublishedTwiceStrands`); with reservations used once it never happens
  (`OutboxRuns.LivePublishSucceeds`).
* **Competing addresses** for one incarnation make the member table depend on the order of
  records; `MemberMerge.OrderIndependentIff` gives the exact condition, and
  `MembershipNetwork.ReachableMergesAgree` shows that reachable networks never meet it.
* **Suspicion timers are inherited** by a SUSPECT record of a higher incarnation, which gets its
  full timeout iff no timer was running before (`MembershipRuns.SuspicionInherited`,
  `MembershipRuns.KilledHalfway`). **A purged tombstone** no longer keeps an old ALIVE record out
  (`MembershipRuns.RevivalNeedsPurge`).

## Model

| member | source | states |
|---|---|---|
| `Causal.Merge` | src/distsys/causal/version_vector.py:62-64 | Merging two vectors takes, for every actor including absent ones, the larger counter. |
| `Causal.WithDot` | src/distsys/causal/version_vector.py:57-60 | Adding a dot raises its actor to at least its counter and leaves the others. |
| `Causal.Compare` | src/distsys/causal/version_vector.py:66-83 | The one-pass comparison with early exit decides BEFORE, AFTER, EQUAL and CONCURRENT exactly as domination in each direction does. |
| `Causal.MergeIsJoin` | src/distsys/causal/version_vector.py:62-86 | Merge is the least vector dominating both. |
| `Causal.MergeLaws` | src/distsys/causal/version_vector.py:62-64 | Merge is commutative, associative and idempotent on normal forms. |
| `Causal.DominatesAntisymmetric` | src/distsys/causal/version_vector.py:37-40 | Vectors that dominate each other are equal, thanks to the zero-free normal form. |
| `Crdt.RequestEffect` | src/distsys/crdt_service.py:292-328 | A request is accepted iff its operation fits its type; then the counter's value moves by the amount, the element is in or out of the set, or the register shows the written value alone. |
| `Crdt.MergeORSets` | src/distsys/crdt/orset.py:64-68 | The dictionary loop computes the union of add dots per element and of removed dots. |
| `Crdt.MergeRegisters` | src/distsys/crdt/mvregister.py:58-65 | The loop merges the values, or raises exactly when some dot carries two different values. |
| `Crdt.TotalBump` | src/distsys/crdt/gcounter.py:37-45 | Incrementing an actor's component raises the counter's value by the amount. |
| `History.InterpJoin` | src/distsys/storage/crdt_store.py:13-24 | Merging the meanings of two versions gives the meaning of the merged version, for all four types, without error. |
| `History.InterpApply` | src/distsys/crdt_service.py:377-389 | Applying an operation to a state that means its version gives the state that means the version with the new dot. |
| `History.InterpFrame` | src/distsys/crdt_service.py:362-395 | A new mutation changes the meaning of no version that existed before it. |
| `History.ORSetMeaning` | src/distsys/crdt/orset.py:45-68 | An element is present iff some covered add of it was observed by no covered remove of it. |
| `History.MVRegisterMeaning` | src/distsys/crdt/mvregister.py:45-65 | A register shows exactly the covered writes observed by no other covered write. |
| `History.VisibleOnlyLogged` | src/distsys/crdt/mvregister.py:52-56 | Every value a register shows was written under its dot and with its text by a logged, covered write of the key. |
| `History.CounterMeaning` | src/distsys/crdt/gcounter.py:37-53 | A counter equals the sum of the covered amounts, each counted once. |
| `Replica.MergeValue` | src/distsys/storage/crdt_store.py:27-38 | The merge of two good entries of a key and type has the state of the joined version, the joined version and the joined context. |
| `Storage.CrdtStore.Replace` | src/distsys/storage/crdt_store.py:78-94 | Stores the entry unless the key's type would change; otherwise nothing changes. |
| `Storage.CrdtStore.MergeEntry` | src/distsys/storage/crdt_store.py:96-102 | Stores the merge with what is there, or leaves the store as it was. |
| `Storage.CrdtStore.MergeMetadata` | src/distsys/storage/crdt_store.py:104-110 | Raises only the context of an existing key. |
| `Replica.MergeOk` | src/distsys/storage/crdt_store.py:27-38 | Good entries of one key merge iff their types agree, and the result is good again; one dot under two register values cannot occur. |
| `Replica.VersionDeterminesState` | src/distsys/replication/digest.py:38-53 | Equal versions of good entries mean equal states. |
| `Replica.DominatingAbsorbs` | src/distsys/replication/digest.py:45-53 | An entry with a dominating version absorbs the other; only contexts are joined. |
| `Replica.MergeIsSemilattice` | src/distsys/storage/crdt_store.py:27-38 | Merging good entries is total, commutative, associative and idempotent. |
| `Node.AllocationAdvances` | src/distsys/causal/clock.py:64-81 | An allocated dot lies above everything the clock and the request have seen, and the staged frontier covers all three. |
| `Node.CausalClock.StageAllocation` | src/distsys/causal/clock.py:64-81 | Staging computes dot and frontier and publishes neither. |
| `Node.CausalClock.Release` | src/distsys/causal/clock.py:42-81 | Leaving the stage publishes it if committed and forgets it otherwise. |
| `Node.CausalClock.Observe` | src/distsys/causal/clock.py:53-56 | Observing merges into the frontier. |
| `Node.MutationContext` | src/distsys/crdt_service.py:362-395 | The entry written has seen the old context, the request's token and the node's clock; the clock only moves forward. |
| `Node.MutationContextIsFrontier` | src/distsys/crdt_service.py:377-392 | The context written is the frontier published, and holds for every actor the largest of clock, old context and token, plus one for the writing actor. |
| `Node.PersistRecovers` | src/distsys/persistence/sqlite_repository.py:275-298 | What recovery needs of the transaction: the restored frontier never falls back across it, and afterwards has seen the new clock and the new entry, which is restored with every other row. |
| `Node.DurableCrdtStore.Mutate` | src/distsys/persistence/durable_store.py:55-75 | Database, then memory, then clock all take the planned mutation, or none changes. |
| `Node.DurableCrdtStore.MergeEntry` | src/distsys/persistence/durable_store.py:77-90 | The same for an incoming entry and its observed context. |
| `Node.DurableCrdtStore.MergeMetadata` | src/distsys/persistence/durable_store.py:92-111 | The same for a raised context. |
| `Node.MergeObserves` | src/distsys/persistence/durable_store.py:77-90 | The clock committed with a merged entry holds for every actor the largest of clock, stored and incoming context; the entry's context the larger of the last two. |
| `Node.MetadataObserves` | src/distsys/persistence/durable_store.py:92-111 | The same for a raised context. |
| `Node.MergeSavedContexts` | src/distsys/recovery/restore.py:42-46 | The loop computes the least frontier that dominates the saved clock and every saved context. |
| `Node.Refill` | src/distsys/recovery/restore.py:54-56 | The loop rebuilds the store row by row to exactly the saved entries. |
| `Node.Restore` | src/distsys/recovery/restore.py:36-59 | Store, clock and saved clock after recovery, from the database alone. |
| `Node.RestoredUnique` | src/distsys/recovery/restore.py:42-52 | The restored frontier is determined by the database. |
| `Protocol.PlanMutationOk` | src/distsys/crdt_service.py:362-395 | The critical section yields a fresh, causally closed log record and an entry that means it. |
| `Protocol.StepKeeps` | src/distsys/crdt_service.py:339-518 | Every step of boot, mutate, receive, raise context, finish, send, hold, publish, ship, observe, respond, reveal, crash and restart keeps the system invariant. |
| `Protocol.RunKeeps` | src/distsys/crdt_service.py:339-518 | Every run keeps it. |
| `Protocol.SomewhereOk` | src/distsys/storage/crdt_store.py:27-38 | In every run each entry in a store, database, message, outbox slot or request is the meaning of exactly the mutations its version covers, a causally closed set. |
| `Protocol.ReachableEntriesAgree` | src/distsys/replication/digest.py:38-53 | In every run, wherever two entries of one key are: they merge iff types agree, in either order, equal versions mean equal states, and dominating ones absorb. |
| `Protocol.ReachableMergeIsSemilattice` | src/distsys/storage/crdt_store.py:13-38 | In every run, merging the entries of a key and type is total, associative, commutative and idempotent. |
| `Protocol.DotsNeverReused` | src/distsys/causal/clock.py:42-89 | No dot ever names two committed mutations, across rollbacks, tokens that push the counter, crashes and restarts. |
| `Protocol.ReachableMeaning` | src/distsys/crdt_service.py:148-157 | What a client reads from any reachable entry is what the covered mutations say, for all four types; a register shows logged, covered writes only, with their texts. |
| `Protocol.MutationTakesEffect` | src/distsys/crdt_service.py:362-395 | In every run, an accepted request is logged and changes what its node shows, once committed, exactly so, and no other key. |
| `Protocol.WriteSeesClock` | src/distsys/crdt_service.py:377-392 | In every run, an entry written at a node has seen everything the node's clock had, and is the node's new frontier. |
| `Protocol.RunGrows` | src/distsys/crdt_service.py:362-395 | The log and what a node has issued only grow along a run. |
| `Protocol.RecoveryLosesNothing` | src/distsys/recovery/restore.py:36-59 | A durable node crashed at any point and restarted holds every mutation it had committed, and its clock dominates every token and dot it ever issued. |
| `Protocol.ClockHasSeen` | src/distsys/persistence/durable_store.py:55-111 | In every run, the clock of a durable node between commits dominates the context of every entry it stores and every token it issued. |
| `Protocol.ContextsNeverShrink` | src/distsys/storage/crdt_store.py:78-110 | While a node stays up, a key's context only grows, whatever requests, merges and repairs interleave. |
| `Protocol.ReplicationDelivers` | src/distsys/crdt_service.py:481-484 | In every run, an entry sent and received leaves the receiver, unless types conflict, with the merge of what it had and what was sent. |
| `Protocol.RaisedContextStays` | src/distsys/replication/causal_repair.py:95-104 | However a repair is interleaved, the context it raised is dominated from then on, so the check that follows it succeeds. |
| `Sessions.AbsorbAnswers` | src/distsys/replication/causal_repair.py:84-93 | Run from beginning to end, the loop over peers merges their entries in turn and collects everything they claim to have seen; a type conflict stops it there. |
| `Sessions.EnsureCausal` | src/distsys/replication/causal_repair.py:58-111 | A repair run from beginning to end does exactly what the specification function says, success and failure alike. |
| `Sessions.RepairSatisfies` | src/distsys/replication/causal_repair.py:58-111 | A successful repair leaves other keys alone and an entry that has seen what was required and what it had. |
| `Sessions.RepairSucceedsIff` | src/distsys/replication/causal_repair.py:58-111 | A repair succeeds iff the local context has seen the token, or there are peers, their entries merge, and local context, frontiers and fetched contexts together reach the token at every actor; the context then holds exactly what was reached. |
| `Sessions.KnownReached` | src/distsys/replication/causal_repair.py:84-93 | What is known after the answers reaches a count iff the local context or some answer's frontier or entry context does. |
| `Sessions.AbsorbType` | src/distsys/replication/causal_repair.py:84-93 | The loop runs to its end iff all entries, local and fetched, have one type. |
| `Sessions.RepairDelivers` | src/distsys/replication/causal_repair.py:84-101 | A repaired read shows a write iff the local entry or an answering replica's entry contained it. |
| `Sessions.ReadDelivers` | src/distsys/crdt_service.py:241-278 | The same, iff, for every entry served, repaired or not. |
| `Sessions.CrdtService.Prepare` | src/distsys/crdt_service.py:241-278 | Finds or repairs an entry that has seen the token, or reports a genuinely new key; the store it leaves is the specified one. |
| `Sessions.PreparedIff` | src/distsys/crdt_service.py:241-278 | Exactly when a request goes on with an entry or a new key and when it is refused; an entry has seen the token, and a key is new only if the node or its peers have seen the token. |
| `Sessions.CrdtService.Succeed` | src/distsys/crdt_service.py:171-189 | The clock observes the entry's context and the response carries the frontier. |
| `Sessions.CrdtService.Read` | src/distsys/crdt_service.py:426-461 | Run from beginning to end: the served entry has seen the token, the response token has seen both and the clock; every error case leaves the stated store. |
| `Sessions.CrdtService.CommitMutation` | src/distsys/crdt_service.py:362-395 | Succeeds iff the request is valid and its type fits; then store and clock take exactly the planned mutation, otherwise nothing changes. |
| `Sessions.CrdtService.Mutate` | src/distsys/crdt_service.py:339-409 | Run from beginning to end: succeeds iff the entry can be prepared and the mutation planned; the written entry is the planned mutation of the repaired store and has seen the token; the response token has seen the entry, the token and the clock. |
| `SessionRuns.RunKeeps` | src/distsys/crdt_service.py:171-461 | The session invariant holds in every run of clients and nodes, durable or not, with requests interleaved step by step with everything else. |
| `SessionRuns.SystemIsRun` | src/distsys/crdt_service.py:339-461 | What the nodes do in such a run is a run of the protocol. |
| `SessionRuns.EveryResponseServed` | src/distsys/crdt_service.py:171-278 | In every run, every response's entry means its version and has seen the request's token, a write's entry contains the write, and the response token has seen both and was issued by the node. |
| `SessionRuns.SessionGrows` | src/distsys/crdt_client.py:68-115 | A session's token never shrinks. |
| `SessionRuns.RequestCarriesSession` | src/distsys/crdt_client.py:68-71 | A request carries everything its session had heard when it was sent. |
| `SessionRuns.ReplyCarriesClock` | src/distsys/crdt_service.py:171-189 | The token of a response is exactly the clock of the answering node at that moment. |
| `SessionRuns.SessionIsWhatWasHeard` | src/distsys/crdt_client.py:68-115 | In every run, a session's token reaches a count iff some response it heard did. |
| `SessionRuns.SessionMonotone` | src/distsys/crdt_client.py:68-115 | In every run and for every client, whichever nodes serve it: a response to a request sent after an earlier response was heard has a token and an entry context that dominate the earlier token and the session token of that time. |
| `StaleRead.OwnWriteCanBeMissing` | src/distsys/replication/causal_repair.py:90-101 | A run in which a client hears of its write and of a read that showed it, and its next read, after a repair answered by a replica that lacks the key but issued the token, shows neither. |
| `AntiEntropy.HandleDigest` | src/distsys/crdt_service.py:499-518 | The digest handler lets in the sender's context exactly where versions and types agree. |
| `AntiEntropy.ReconcileKey` | src/distsys/replication/anti_entropy.py:145-173 | One key both digests list: both stores end as the specification says, or the error leaves them so. |
| `AntiEntropy.ReconcileDigest` | src/distsys/replication/anti_entropy.py:103-174 | The whole loop over sorted keys equals the round on values, up to the first error. |
| `AntiEntropy.StoresRound` | src/distsys/replication/anti_entropy.py:130-173 | A round over two stores is the round of each mentioned key on its own and touches no other. |
| `AntiEntropy.FirstRound` | src/distsys/replication/anti_entropy.py:103-174 | One round leaves both replicas of a key with the joined state and version. |
| `AntiEntropy.ThreeRounds` | src/distsys/replication/anti_entropy.py:103-174 | The second round makes the entries equal, contexts included, and the third transfers nothing. |
| `AntiEntropy.RoundTransfers` | src/distsys/replication/anti_entropy.py:130-173 | A round counts as a repair iff a copy was missing, versions differed or the local context lacked something of the remote one. |
| `AntiEntropy.TypeConflictRaises` | src/distsys/replication/digest.py:38-43 | Two types for one key raise before the key is touched. |
| `AntiEntropy.RoundSucceeds` | src/distsys/replication/anti_entropy.py:103-174 | Without type conflicts the round of two good stores runs to its end. |
| `AntiEntropy.StoresFirstRound` | src/distsys/replication/anti_entropy.py:103-174 | The first-round result for every key of two stores at once. |
| `AntiEntropy.StoresSecondRound` | src/distsys/replication/anti_entropy.py:103-174 | The second-round result for every key of two stores at once. |
| `AntiEntropy.StoresQuiet` | src/distsys/replication/anti_entropy.py:103-174 | Stores that agree exchange nothing. |
| `Convergence.ReachableNodesConverge` | src/distsys/replication/anti_entropy.py:103-174 | For any two nodes at any moment of any run: one round joins state and version of every key, two make the entries equal, the third transfers nothing. |
| `AntiEntropy.ShownComplete` | src/distsys/crdt_service.py:509-518 | The cut digest response is complete iff the shared keys fit the length of the request, or one. |
| `AntiEntropy.ShownAre` | src/distsys/crdt_service.py:509-518 | The response mentions the smallest shared keys, in order, as many as were asked for. |
| `Outbox.ReplicationOutbox.constructor` | src/distsys/replication/outbox.py:41-47 | A new outbox is empty. |
| `Outbox.ReplicationOutbox.ReservePairs` | src/distsys/replication/outbox.py:49-59 | All distinct pairs are reserved or, when they would exceed capacity, none. |
| `Outbox.ReserveIff` | src/distsys/replication/outbox.py:49-59 | A reservation is granted iff all pairs, old and new, fit the capacity; exactly the named pairs gain one. |
| `Outbox.ReplicationOutbox.CancelReservation` | src/distsys/replication/outbox.py:61-75 | Each pair gives back one reservation and disappears if nothing else needs it. |
| `Outbox.ReplicationOutbox.PublishStates` | src/distsys/replication/outbox.py:77-100 | The loop publishes pair by pair up to the first that cannot be; the queue is touched only if all could. |
| `Outbox.ReplicationOutbox.ClaimPair` | src/distsys/replication/outbox.py:106-117 | A claimed pair leaves the queued state for in-flight and yields its current state and generation. |
| `Outbox.ReplicationOutbox.Complete` | src/distsys/replication/outbox.py:119-157 | Completion drops what was sent or queues what came meanwhile; abandon does the same. |
| `Outbox.PublishAt` | src/distsys/replication/outbox.py:83-100 | A successful publish treats each pair exactly once and queues exactly the sleeping ones. |
| `Outbox.PublishFails` | src/distsys/replication/outbox.py:83-92 | Publish raises iff some pair lacks a state or a reservation. |
| `Outbox.FailedPublishStrands` | src/distsys/replication/outbox.py:83-100 | A publish that raises at a pair strands, marked queued with the queue untouched, exactly the sleeping pairs before it. |
| `Outbox.StuckForGood` | src/distsys/replication/outbox.py:49-157 | No later operation frees a pair marked queued that is not in the queue. |
| `Outbox.PublishedTwiceStrands` | src/distsys/replication/outbox.py:77-100 | A history in which publishing one reservation twice gets a pair stuck. |
| `OutboxRuns.RunKeeps` | src/distsys/replication/outbox.py:49-157 | The outbox invariant holds in every interleaving that uses each reservation and each item once. |
| `OutboxRuns.HeldByOneWorker` | src/distsys/replication/outbox.py:102-117 | A held pair is neither queued nor waiting and cannot be claimed again. |
| `OutboxRuns.QueuedOnce` | src/distsys/replication/outbox.py:94-137 | A queued pair waits exactly once; every other pair not at all. |
| `OutboxRuns.NoLeak` | src/distsys/replication/outbox.py:49-75 | Capacity is never exceeded; a pair is pending iff reserved, waiting or held; its count is the number of outstanding reservations naming it. |
| `OutboxRuns.LivePublishSucceeds` | src/distsys/replication/outbox.py:77-100 | Publishing an outstanding reservation never raises. |
| `OutboxRuns.HeldWasPublished` | src/distsys/replication/outbox.py:106-117 | What a worker holds was published for that pair. |
| `OutboxRuns.HandedOutInOrder` | src/distsys/replication/outbox.py:77-157 | States handed out for a pair are a strictly increasing subsequence of those published, ending with the last once the pair is drained. |
| `OutboxRuns.QueuedInOrder` | src/distsys/replication/outbox.py:83-100 | A publish queues the sleeping pairs in the order of the reservation. |
| `OutboxRuns.FirstInFirstOut` | src/distsys/replication/outbox.py:94-137 | In every interleaving, pairs leave the queue in the order in which they entered it, and the queue holds exactly those that have not left. |
| `Membership.MembershipTable.constructor` | src/distsys/cluster/membership.py:17-37 | A new table holds the local record, no timers, version 1, and is in order iff that record is ALIVE. |
| `Membership.MembershipTable.RecordTimerState` | src/distsys/cluster/membership.py:69-79 | Timers are started, kept or dropped by the record's status. |
| `Membership.MembershipTable.MergeOneLocked` | src/distsys/cluster/membership.py:81-127 | One record is accepted, upgraded, refuted or ignored as specified; the flag says whether. |
| `Membership.MembershipTable.Merge` | src/distsys/cluster/membership.py:129-136 | Records are merged in turn; the flag and the new version appear iff the member table differs. |
| `Membership.MembershipTable.MarkSuspect` | src/distsys/cluster/membership.py:138-153 | Only a remote ALIVE member becomes SUSPECT. |
| `Membership.MembershipTable.AdvanceTimeoutsAndPurge` | src/distsys/cluster/membership.py:155-190 | The two loops together kill every overdue suspect and purge every expired tombstone, each node on its own; the flag and the version follow the content. |
| `MemberMerge.AcceptAllAt` | src/distsys/cluster/membership.py:81-136 | After any records, every node's record is the one of highest incarnation and severity, with an address announced for it; the local one has refuted every accusation by exactly one. |
| `MemberMerge.AcceptAllConcat` | src/distsys/cluster/membership.py:129-136 | Merging in groups is merging at once. |
| `MemberMerge.OrderIndependent` | src/distsys/cluster/membership.py:81-136 | Order and repetition do not matter while no two addresses compete. |
| `MemberMerge.OrderIndependentIff` | src/distsys/cluster/membership.py:108-127 | They do not matter iff no two addresses compete for a node's highest, new incarnation. |
| `MembershipRuns.TimerIsStart` | src/distsys/cluster/membership.py:69-79 | In every run a timer shows when its status last began, unbroken since. |
| `MembershipRuns.DeathByTimeout` | src/distsys/cluster/membership.py:160-174 | A sweep declares a suspect dead iff it has been SUSPECT without a break for the suspicion timeout. |
| `MembershipRuns.PurgeByRetention` | src/distsys/cluster/membership.py:176-186 | A sweep forgets a dead member iff it has been DEAD without a break for the retention time. |
| `MembershipRuns.MarkSuspects` | src/distsys/cluster/membership.py:138-153 | Marking changes one remote ALIVE record, to SUSPECT, starts its timer at that moment and leaves everything else. |
| `MembershipRuns.DeathHasCause` | src/distsys/cluster/membership.py:81-174 | In every run, a member DEAD in the table was declared so by a DEAD record that was merged or by a sweep that found it SUSPECT for the full timeout; a mark never kills. |
| `MembershipRuns.OnlyPurgeRemoves` | src/distsys/cluster/membership.py:81-190 | No other operation removes a record. |
| `MembershipRuns.RanksNeverDrop` | src/distsys/cluster/membership.py:81-174 | While a record is not purged, incarnation and, within one, severity never decrease. |
| `MembershipRuns.TombstoneHolds` | src/distsys/cluster/membership.py:108-127 | While a tombstone is held, no record of equal or lower incarnation changes it. |
| `MembershipRuns.RevivalNeedsPurge` | src/distsys/cluster/membership.py:108-111 | An old ALIVE record is believed again iff the tombstone was due for purging. |
| `MembershipRuns.SuspicionInherited` | src/distsys/cluster/membership.py:74-76 | A SUSPECT record of a new incarnation outlives every sweep within the suspicion timeout iff no timer had been running for the node before it arrived. |
| `MembershipRuns.KilledHalfway` | src/distsys/cluster/membership.py:74-76 | An incarnation that arrives half-way through the old timer survives for now and dies after half its time. |
| `MembershipNetwork.RunKeeps` | src/distsys/cluster/service.py:165-233 | The network invariant holds in every run of boots, crashes, joins, snapshots, deliveries, marks and sweeps. |
| `MembershipNetwork.NeverAhead` | src/distsys/cluster/service.py:165-233 | No table or message ever holds an incarnation of a running node above the node's own. |
| `MembershipNetwork.RefutationOutranks` | src/distsys/cluster/membership.py:84-105 | A refutation outranks every record about the node existing anywhere at that moment. |
| `MembershipNetwork.ReachableMergesAgree` | src/distsys/cluster/membership.py:129-136 | In a reachable network the outcome of merging a set of messages does not depend on order or repetition. |
| `MembershipNetwork.GossipInforms` | src/distsys/cluster/service.py:165-233 | In every run, what a running node tells another, the other then knows at least as well; about itself it holds that it is ALIVE. |
| `MembershipNetwork.Snapshot` | src/distsys/cluster/membership.py:43-45 | A snapshot lists every record once, in ascending order of node id. |
| `MembershipNetwork.ProbeClearsSuspicion` | src/distsys/cluster/failure_detector.py:67-82 | An uninterrupted ping of a suspected node ends with the prober holding it ALIVE at a higher incarnation. |
| `Ring.ConsistentHashRing.Rebuild` | src/distsys/cluster/consistent_hash.py:28-37 | The ring holds exactly the virtual nodes of the ALIVE members, sorted by position and node id. |
| `Ring.VirtualLabel` | src/distsys/cluster/consistent_hash.py:32-34 | The i-th virtual node stands at the hash of the node id, a # and the decimal numeral of i. |
| `Ring.LabelsDiffer` | src/distsys/cluster/consistent_hash.py:32-34 | Different virtual nodes have different labels, whatever characters node ids contain. |
| `Ring.RingSize` | src/distsys/cluster/consistent_hash.py:28-37 | Where the hash does not collide, the ring has as many positions as living members times virtual nodes. |
| `Order.LessMeaning` | src/distsys/cluster/consistent_hash.py:35-35 | The order of node ids is decided at their first difference, a proper prefix coming first. |
| `Ring.ConsistentHashRing.Candidates` | src/distsys/cluster/consistent_hash.py:39-51 | Every ALIVE member once, in the order the ring meets them from the key; NoRoute iff there is none. |
| `Ring.SortPoints` | src/distsys/cluster/consistent_hash.py:35-35 | Sorting orders the points and permutes them. |
| `Ring.BisectLeft` | src/distsys/cluster/consistent_hash.py:42-42 | The insertion point separates smaller positions from the others. |
| `Ring.Walk` | src/distsys/cluster/consistent_hash.py:43-51 | One turn around the ring keeps the first owner of each node id. |
| `Ring.CandidatesAre` | src/distsys/cluster/consistent_hash.py:39-51 | De-duplicating the turned ring lists all members in order of their first clockwise point. |
| `Ring.CandidatesUnique` | src/distsys/cluster/consistent_hash.py:28-51 | The candidate list depends only on who is alive, has no repetitions and is complete. |
| `Ring.ReplicasAre` | src/distsys/replication/replica_selector.py:16-17 | The replicas are the first candidates, as many as the factor asks for and the cluster has. |
| `Ring.RemovalDeletes` | src/distsys/cluster/consistent_hash.py:28-51 | Removing a member deletes it from every key's list and changes nothing else. |
| `Ring.ReplicasAfterRemoval` | src/distsys/replication/replica_selector.py:16-17 | A replica set loses only that member and gains at most the next candidate; other sets stay. |
| `RingCache.VersionTracksContent` | src/distsys/cluster/membership.py:129-190 | The version never goes back and moves whenever the members change. |
| `RingCache.RunCoherent` | src/distsys/cluster/service.py:103-109 | In every interleaving of table changes and concurrent syncs, a recorded version equal to the table's means a ring built from the current members. |
| `RingCache.LivingDistinct` | src/distsys/cluster/membership.py:43-58 | Node ids identify the living members of a table, as the ring's contract asks. |
| `RingCache.RoutesAsFresh` | src/distsys/cluster/service.py:103-109 | Such a ring routes every key as a freshly built one would. |
| `RingCache.QuietSyncIsCurrent` | src/distsys/cluster/service.py:103-109 | A sync during which the table stands still leaves ring and version current. |
| `Framing.HeaderExactly` | src/distsys/protocol/framing.py:25-45 | A header is accepted iff it is the one written for its message type and a length from one to the limit. |
| `Framing.HeaderBytes` | src/distsys/protocol/framing.py:18-21 | The eight header bytes by position: D, S, 1, the message type, and the length, most significant byte first; no other bytes are such a header. |
| `Framing.FrameLayout` | src/distsys/protocol/framing.py:48-55 | A frame is written iff the body is not empty and within the limit and four bytes of length, and is that header followed by the body. |
| `Framing.FrameDecoder.Feed` | src/distsys/protocol/framing.py:83-108 | Buffer, messages and fault after a chunk are those of the buffered bytes taken together; each call terminates. |
| `Framing.ChunkingInvariant` | src/distsys/protocol/framing.py:83-108 | However a stream is cut, a sound one gives the same messages and remainder, and a faulty one the same fault. |
| `Framing.ChunkingInvariantIff` | src/distsys/protocol/framing.py:83-108 | All cuts deliver the same messages iff no good frame precedes a fault. |
| `Framing.FrameRoundTrip` | src/distsys/protocol/framing.py:48-73 | A framed message is read back iff it names its sender and correlation id. |
| `Framing.ChunkedRoundTrip` | src/distsys/protocol/framing.py:48-108 | Any cut of the stream of any encoded messages delivers exactly those messages and leaves nothing over. |
| `Framing.BufferIsUndecodedSuffix` | src/distsys/protocol/framing.py:83-108 | After any part of such a stream the buffer holds exactly the bytes after the last delivered frame, an unfinished one. |
| `Framing.ReadersAgree` | src/distsys/protocol/framing.py:58-73 | On every byte stream, repeated read_message and the incremental decoder give the same messages and fault. |
| `Codec.DecodeVersionVector` | src/distsys/persistence/codec.py:63-77 | The loop decodes entry by entry, stopping at the first bad one, and normalises. |
| `Codec.DecodeGCounter` | src/distsys/persistence/codec.py:84-92 | The same for counters, where the last component of an actor counts. |
| `Codec.DecodeActorIff` | src/distsys/persistence/codec.py:36-44 | An actor decodes iff its two fields are a non-empty string and a non-negative integer, booleans counting as integers. |
| `Codec.DecodeDotIff` | src/distsys/persistence/codec.py:50-53 | A dot decodes iff it has an actor and a positive counter. |
| `Codec.DecodeVectorIff` | src/distsys/persistence/codec.py:63-77 | A list decodes to a vector iff the vector has the counter of every entry and no unlisted actor, so repeated actors must agree. |
| `Codec.DecodeCounterIff` | src/distsys/persistence/codec.py:84-92 | A list decodes to a counter iff every item is a component and the counter has the number of each actor's last one and no unlisted actor. |
| `Codec.DotRoundTrip` | src/distsys/persistence/codec.py:32-53 | Actors and dots come back. |
| `Codec.CountsRoundTrip` | src/distsys/persistence/codec.py:56-92 | Version vectors and counters come back. |
| `Codec.CountsCanonical` | src/distsys/causal/version_vector.py:24-31 | Any ascending listing of the components gives the same encoding. |
| `Codec.StateRoundTrip` | src/distsys/persistence/codec.py:95-166 | All four states come back, except a register that stores something other than JSON. |
| `Codec.EntryRoundTrip` | src/distsys/persistence/codec.py:178-199 | Entries come back, both vectors included, under the same exact condition. |
| `Codec.StateFields` | src/distsys/persistence/codec.py:95-124 | The tree of each state has exactly the named fields, down to the leaves, with its lists in ascending order. |
| `Codec.EntryColumns` | src/distsys/persistence/codec.py:178-185 | The row holds the key, the type's name, the state's tree and both vectors, each in its column. |
| `Codec.EncodingInjective` | src/distsys/persistence/codec.py:178-185 | Different entries are stored differently. |

## Left out

- Sockets, TLS, peer clients, protobuf and JSON text: input and output, taken as channels and parameters.
- Routing and forwarding of requests to replicas: a forwarded request is a request at another node; session statements hold for whichever node answers.
- Deadlines, timeouts and cancellation of requests: a request that fails has no response; a cancelled commit is a crash.
- The order of reserving outbox slots around a mutation: the outbox and the mutation are proved on their own.
- The replicator's worker loop, task routing, compute tasks, worker pool, rate limits, retries and circuit breakers: single loops and counters that would add only easy members.
- Identity bootstrap, migrations, backups, authority marks and the etcd client: thin wrappers over external services.
- Observability, configuration, chaos and benchmark tooling.
- Indirect probes: what they merge is covered by the network of tables; that a helper answers is not claimed.
- Fairness of digest batches and other liveness over real time: no claim about keys beyond a batch, nor that anything eventually happens.
- The locks themselves: critical sections are single steps.
- Sessions.AbsorbAnswers: describes the loop while no other task touches the store; what survives interleaving is `Protocol.RaisedContextStays` and `SessionRuns`.
- Sessions.EnsureCausal: the same, on the in-memory store.
- Sessions.CrdtService.Prepare: the same.
- Sessions.CrdtService.Read: the same; for interleaved requests at durable and volatile nodes see `SessionRuns.EveryResponseServed`.
- Sessions.CrdtService.Mutate: the same; the durable commit of the same plan is `Node.DurableCrdtStore.Mutate`.
- Which fetches an interleaved repair makes, and in what order their answers arrive: any merge of any sent entry may happen at any time.
- NaN and infinity in stored JSON: the printer refuses them, and no tree here holds one.
