# StateMaster, modelled and proved

StateMaster is a single-node database of state machines. A client defines machines,
then asks for transitions of entities; every committed transition is a record of an
append-only log, and everything else the database stores is derived from that log.
Subscribers receive the log as a stream of change records.

This project models the parts of StateMaster whose correctness is not visible in any
one function and proves what they promise together:

- **One source of truth.** `Database.Represents` says that the projection, the by-id and
  history indexes, the idempotency table, the outbox and the sequence counter are exactly
  what the log amounts to. Every operation keeps it, in place (`Storage`, `Engine`) and
  under any interleaving of concurrent calls (`Concurrency`, `Interleaving`).
- **Concurrent calls.** `Concurrency` splits `Engine::transition` into its atomic steps
  and lets any number of calls, definitions, guard registrations and status changes
  interleave. Committed calls replayed one at a time give the same log
  (`Linearizability`); replies are those of the one-step specification `Log.Atomic` at a
  moment during the call (`Locking`, `Replies`); the storage engine's version conflict is
  reachable exactly if the lock stripes separate two pairs that share a key (`Conflict`);
  a success names the states projected around its own commit or repeats the record of its
  key (`Results`); a call left undisturbed does what the specification says (`Progress`);
  effect statuses, definitions and guards are the last ones written (`Administration`);
  histories are legal runs, per key always and per pair exactly if no key is shared
  (`Histories`).
- **Order-encoded indexes.** Reads through NUL-separated, zero-padded string keys equal
  plain filters of the log (`Text`, `Keys`, `Ordered`, `Reads`, `Changes`).
- **The change stream.** The batched, pruning, fault-tolerant dispatcher loop delivers to
  each subscriber exactly the filtered log between its start and its cursor (`Dispatch`,
  `Fanout`, `Subscriptions`); a consumer can rebuild the projection from what it was sent, and can
  stop and subscribe again without gap or repetition (`Replay`); only subscribers whose
  receiver is gone are dropped (`Survival`).
- **The wire.** Decoding is independent of chunking and inverts encoding (`Framing`);
  replies reach the caller that asked and say how its command fared (`Correlation`,
  `Connection`); failures have their cause (`Failures`).

Modules that stand for mutable objects of the source are classes or methods with loops
(`Storage.RedbEngine`, `Engine.Engine`, `Subscriptions.Dispatcher`, `Connection.SharedState`,
`Framing.ByteBuffer`, the scans in `Scans`, `Machine.Validate`), each proved against a
function of the log or of the old state. The concurrency arguments use step systems whose
state is a value and whose `Run` is any sequence of steps.

`dafny verify dfyconfig.toml` checks the whole project.

## What is taken as given

- A redb table is an ordered map; a write transaction is all or nothing and a read sees
  one committed snapshot. MessagePack and JSON encoding are the identity.
- Clock readings and UUIDs are inputs (`Log.Inputs`). UUIDs are new, distinct and free of
  NUL (`Database.Fresh`). Guards are pure functions.
- The hash that picks a lock stripe is an arbitrary function of (entity, machine).
- Which storage operations fail, and when a receiver goes away, are inputs
  (`io`, `CallIo`, `ok`, `feed`, `closesAfter`), so every statement covers every pattern of
  faults unless it says otherwise.
- There is one dispatcher: a pass prunes before the next one drains. Between its two
  halves anything else may happen.
- The sequence counter stays below 2^64 - 1, which no real system reaches.
- In `Correlation`, writes to a socket arrive whole and in order.

Entity ids and machine names are arbitrary strings. Nothing in the code keeps NUL out of
them, so where a promise needs that, the theorem is an equivalence with the exact
condition on the log: no logged id contains NUL (`HistoryReadExact`, `ReplayRebuilds`,
`StateKeyOwnedExactly`), no two logged pairs share a key (`ListReadExact`,
`PairHistoriesAreLegal`), no other pair is logged under this one's key
(`ProjectionIsFold`). The limit of a history read is a 32-bit number; `HistoryReadExact`
ranges over all limits, and the limit that exposes a foreign record is at most twice the
length of the log, so it is a real input for logs below 2^31 entries.

A *moment* in the statements about replies (`Concurrency.Moment`) is a position in each of
three histories: the log, the stored definitions and the registered guards. Each position
lies between the call's begin and its end. If definitions or guards change while the call
is under way, the three need not have been current at the same instant; if they do not
change, the moment is one instant.

## Where code and documentation disagree

The model follows the code.

- Effects of a transition come back in effect-id order, not in insertion order, and
  pending effects in id order, not by creation time.
- `store_machine` overwrites by name and `get_machine` ignores the requested version.
- A reused idempotency key replays the stored result whatever the new entity or event is.
- A subscription that starts after sequence 2^64 - 1 starts over from the beginning,
  because the range start wraps in a release build (`AfterReadExact`,
  `LargestStartBeginsAgain`).
- The protocol overview speaks of a 6-byte header; the header is 5 bytes.
- The protocol text promises an `Error` frame for an oversized frame; the server closes
  the session without one. The encoder does not check the limit (`OversizeStops`).
- The reader's comment says `Error` frames carry a request id; they do not, and are dropped.

## Model

| member | source | states |
|---|---|---|
| `Text.PaddedOrder` | crates/smdb-storage/src/redb_engine.rs:90-93 | 20-digit zero padding turns numeric order into key order, both ways, for all 64-bit sequence numbers |
| `Text.PrefixIsContiguous` | crates/smdb-storage/src/redb_engine.rs:351-367 | keys with a common prefix are contiguous: none lies below the prefix, and none follows the first key without it |
| `Keys.StateKeyOwnedExactly` | crates/smdb-storage/src/redb_engine.rs:86-88 | a pair is the only one with its projection key if and only if neither id contains NUL |
| `Keys.StateKeySameMachine` | crates/smdb-storage/src/redb_engine.rs:86-88 | with the machine fixed, the projection key always determines the entity |
| `Keys.PrefixSelectsPair` | crates/smdb-storage/src/redb_engine.rs:90-97 | the prefix of any queried pair selects the history key of a NUL-free pair exactly if the pairs are equal |
| `Keys.PrefixSelectsForeignPair` | crates/smdb-storage/src/redb_engine.rs:90-97 | a stored pair with a NUL in it is selected by the prefix of some other pair |
| `Keys.TransitionKeyOrder` | crates/smdb-storage/src/redb_engine.rs:90-93 | history keys of a pair are ordered exactly as their sequence numbers |
| `Keys.TransitionKeySequence` | crates/smdb-storage/src/redb_engine.rs:90-93 | equal history keys have equal sequence numbers, whatever the ids contain |
| `Keys.EffectPrefixSelects` | crates/smdb-storage/src/redb_engine.rs:99-105 | the effect prefix of a transition selects exactly that transition's keys |
| `Keys.EffectKeyUnique` | crates/smdb-storage/src/redb_engine.rs:99-101 | effect index keys determine transition and effect |
| `Core.Plan` | crates/smdb-core/src/engine.rs:20-38 | planning finds a matching rule exactly if there is one |
| `Core.PlanIsFirst` | crates/smdb-core/src/engine.rs:20-38 | the plan is the rule at the least matching position |
| `Core.EffectsOnFires` | crates/smdb-core/src/engine.rs:62-72 | the effect rules that fire are those at an ascending list of positions which holds exactly the positions of the rules for the event |
| `Core.GuardOutcome` | crates/smdb-engine/src/guard.rs:34-39 | a transition is blocked exactly if a registered guard of its rule fails; the first such guard is reported, unregistered guards pass |
| `Machine.Validate` | crates/smdb-core/src/machine.rs:34-90 | accepts exactly the well-formed definitions, and each kind of rejection names a fault that is there: the state that repeats, the pair that occurs twice, the undeclared state |
| `Machine.CheckRule` | crates/smdb-core/src/machine.rs:55-87 | one rule passes exactly if its states are declared and its (event, from) pairs are new, which are then recorded |
| `Machine.PlanIsDeterministic` | crates/smdb-core/src/engine.rs:15-38 | in a validated definition at most one rule matches any (state, event) |
| `Machine.PlanIgnoresOrder` | crates/smdb-core/src/engine.rs:20-38 | permuting the rules of a validated definition does not change any plan |
| `Machine.StaysDeclared` | crates/smdb-core/src/machine.rs:34-90 | whatever events arrive, a validated machine stays within its declared states |
| `Log.PrepareFailsWhen` | crates/smdb-engine/src/engine.rs:169-213 | a call is rejected exactly for a stale expected version, no applicable rule, or a failing guard, in that order |
| `Log.PreparedContinues` | crates/smdb-engine/src/engine.rs:157-240 | what a call prepares continues its key's history by one legal step of the definition, with one effect for each rule of the event, in order, of that rule's name and payload, and its row is the fold of that history |
| `Log.PreparedDeclares` | crates/smdb-engine/src/engine.rs:215-225 | the prepared effects are, one by one, those of the rules at the firing positions, with `Null` for a missing payload |
| `Log.CommittedMoves` | crates/smdb-engine/src/engine.rs:242-257 | a result that reports what a call commits names the call's pair, the state before, the state and version after, and the next sequence |
| `Log.SameVersionSameRow` | crates/smdb-storage/src/redb_engine.rs:422-442 | two moments at which a key has the same version have the same row |
| `Database.IdempotencyLookup` | crates/smdb-storage/src/redb_engine.rs:379-392 | at most one record carries a key; the lookup finds it, and finds nothing exactly if there is none |
| `Database.ProjectionLookup` | crates/smdb-storage/src/redb_engine.rs:157-171 | the projection read returns the fold of the key's log entries |
| `Database.TransitionLookup` | crates/smdb-storage/src/redb_engine.rs:239-252 | the by-id read finds a record exactly if the log has it |
| `Database.CommitOutcome` | crates/smdb-storage/src/redb_engine.rs:422-468 | a commit is refused exactly for a row that is not one version behind, which is reported first, or for a key that some record carries; otherwise it writes |
| `Database.WrittenRepresents` | crates/smdb-storage/src/redb_engine.rs:396-472 | the eight tables written by a commit agree with the log extended by one entry |
| `Database.CommitExtends` | crates/smdb-storage/src/redb_engine.rs:396-472 | a call planned against the current row with a new key commits, numbers its record with the next sequence and extends the log by exactly the specified entry |
| `Reads.WalkIsHistory` | crates/smdb-storage/src/redb_engine.rs:254-289 | walking the string index in key order gives the pair's records after the cursor, in sequence order |
| `Reads.HistoryReadExact` | crates/smdb-storage/src/redb_engine.rs:254-289 | every history read, for every pair, limit and cursor, is the first `limit` of the filtered log if and only if no logged id contains NUL |
| `Reads.ForeignRecordLeaks` | crates/smdb-storage/src/redb_engine.rs:254-289 | a logged id with NUL makes the record turn up in another pair's history |
| `Reads.PagesConcatenate` | crates/smdb-storage/src/redb_engine.rs:254-289 | if no logged id contains NUL, reading page after page, of any positive size, collects the full history |
| `Reads.AfterReadIsTail` | crates/smdb-storage/src/redb_engine.rs:291-311 | a range read returns the first `limit` records of the log from where 64-bit arithmetic resumes |
| `Reads.AfterReadExact` | crates/smdb-storage/src/redb_engine.rs:291-311 | it returns the records after `after` for every limit if and only if `after` is not 2^64 - 1 or the log is empty |
| `Reads.ListReadMeans` | crates/smdb-storage/src/redb_engine.rs:199-214 | the listing has, once each, exactly the entities whose projection key was last used by the entity itself and left in the state; the substring test drops none |
| `Reads.ListReadExact` | crates/smdb-storage/src/redb_engine.rs:199-214 | for all machines and states the listing has exactly the entities whose own last record ends in the state, if and only if no two logged pairs share a key |
| `Changes.EffectsReadBack` | crates/smdb-storage/src/redb_engine.rs:351-367 | the scan that stops at the first foreign key returns all effects of the transition and no other, in effect-id order |
| `Changes.ChangeCarriesDeclared` | crates/smdb-engine/src/engine.rs:330-353 | a change record carries, as a multiset, one effect for each rule of its event, with that rule's name and payload |
| `Changes.StreamResumes` | crates/smdb-engine/src/engine.rs:315-365 | two consecutive stretches of the stream concatenate to the whole, filtered or not |
| `Changes.StreamStable` | crates/smdb-engine/src/engine.rs:307-373 | commits never change what was already streamed |
| `Outbox.StatusKeepsAgreement` | crates/smdb-storage/src/redb_engine.rs:485-502 | changing effect statuses keeps all tables in agreement with the same log |
| `Outbox.CommitAddsPending` | crates/smdb-storage/src/redb_engine.rs:444-456 | a commit adds exactly its own effects to the pending ones, all of them new, as many as its event has effect rules |
| `Outbox.DrainMoves` | crates/smdb-engine/src/dispatcher.rs:58-68 | an error-free drain moves exactly min(256, pending) effects, those with the least ids, from Pending to Published and changes nothing else |
| `Outbox.DrainsEmpty` | crates/smdb-engine/src/dispatcher.rs:58-68 | without commits, repeated drains empty the outbox after exactly ceil(n / 256) passes |
| `Outbox.PendingIsPublished` | crates/smdb-engine/src/dispatcher.rs:58-68 | each pending effect is published by one of those drains |
| `Scans.ScanHistory` | crates/smdb-storage/src/redb_engine.rs:254-289 | the loop with its `continue` and `break` computes the walk cut at `limit` |
| `Scans.ScanAfter` | crates/smdb-storage/src/redb_engine.rs:291-311 | the range loop computes the specified read |
| `Scans.ScanPending` | crates/smdb-storage/src/redb_engine.rs:332-349 | the loop collects the first `limit` pending effects in id order |
| `Scans.ScanEffects` | crates/smdb-storage/src/redb_engine.rs:351-367 | the prefix loop computes the specified scan |
| `Scans.ScanStates` | crates/smdb-storage/src/redb_engine.rs:199-214 | the loop over the projection computes the specified listing |
| `Storage.RedbEngine.StoreMachine` | crates/smdb-storage/src/redb_engine.rs:119-129 | overwrites the definition of that name and nothing else |
| `Storage.RedbEngine.ExecuteTransition` | crates/smdb-storage/src/redb_engine.rs:396-472 | commits to all tables at once and appends one log entry, or, at whichever step it fails, leaves every table and the counter as they were |
| `Storage.RedbEngine.UpdateEffectStatus` | crates/smdb-storage/src/redb_engine.rs:485-502 | changes one effect's status, or nothing if the effect is unknown |
| `Storage.RedbEngine.GetHistory` | crates/smdb-storage/src/redb_engine.rs:254-289 | computes the index read, which for a log without NUL in its ids is the first `limit` of the pair's history |
| `Storage.RedbEngine.GetTransitionsAfter` | crates/smdb-storage/src/redb_engine.rs:291-311 | returns the next `limit` records of the log |
| `Storage.RedbEngine.ListEntitiesInState` | crates/smdb-storage/src/redb_engine.rs:199-214 | returns, once each, exactly the entities that `Reads.ListReadMeans` names |
| `Storage.DrainOutbox` | crates/smdb-engine/src/dispatcher.rs:58-68 | whatever marks fail, the drain edits only statuses and keeps the agreement; without failures it is the specified drain |
| `Storage.FaultyDrain` | crates/smdb-engine/src/dispatcher.rs:60-67 | whichever marks fail, each effect read ends Published, or Failed if it could not be published, or Pending if neither could be written, and no other effect changes |
| `Engine.Engine.RegisterGuard` | crates/smdb-engine/src/engine.rs:101-103 | the guard decides under its name from now on, all other names as before |
| `Engine.Engine.DefineMachine` | crates/smdb-engine/src/engine.rs:105-110 | a definition is stored exactly if it is well formed; log and other tables stay |
| `Engine.Engine.Transition` | crates/smdb-engine/src/engine.rs:123-257 | without faults the reply and the new log are the specification's; with any faults a success still is, and a call that does not commit changes nothing; a success that commits names the states and version projected before and after and the new log length, a replay repeats field by field the record that carries the key |
| `Engine.BeforeCommit` | crates/smdb-engine/src/engine.rs:134-213 | the steps before the commit reply exactly when the specification does not commit, and otherwise hand over what it commits |
| `Engine.CommitDecides` | crates/smdb-engine/src/engine.rs:242-257 | the write transaction of a planned call succeeds exactly if the specification commits, with the same entry |
| `Engine.ValidateGuards` | crates/smdb-core/src/engine.rs:43-57 | the scan returns the first guard that failed or was not evaluated |
| `Engine.KeyReplaysForever` | crates/smdb-engine/src/engine.rs:142-155 | once a record carries a key, every later call with it replays that record |
| `Engine.RetryReturnsCommittedResult` | crates/smdb-engine/src/engine.rs:142-155 | a committed call and every later call with its key return the same result, and the later one changes nothing |
| `Interleaving.PlanStillValid` | crates/smdb-storage/src/redb_engine.rs:422-442 | a planned call whose version is still current at commit sees the very row it planned with |
| `Interleaving.RunKeeps` | crates/smdb-engine/src/engine.rs:123-257 | in every state of every interleaving, with or without the stripe locks, the tables agree with the log and each entry is what the specification commits there for its call |
| `Linearizability.CommitsAreSerial` | crates/smdb-engine/src/engine.rs:137-257 | the committed calls, taken one at a time in sequence order, give the same log |
| `Linearizability.LogDeterminesTables` | crates/smdb-storage/src/redb_engine.rs:396-472 | two databases with the same log have the same tables, up to effect statuses and definitions |
| `Linearizability.HistoriesAreLegal` | crates/smdb-engine/src/engine.rs:157-236 | in every run, versions under a projection key are exactly 1..n, each step starts where the previous ended, and each performs a rule of a validated definition that was stored between its call's begin and its commit, the first from its initial state |
| `Histories.PairHistoriesAreLegal` | crates/smdb-engine/src/engine.rs:157-236 | in every run the same holds pair by pair, for each pair's own records, if and only if no two logged pairs share a key |
| `Histories.NulFreeKeysUnshared` | crates/smdb-storage/src/redb_engine.rs:86-88 | pairs with NUL-free ids never share a key |
| `Histories.SharedKeyBreaksHistory` | crates/smdb-engine/src/engine.rs:160-167 | entity "a\0b" of machine "c" and entity "a" of machine "b\0c": a run in which the second pair's history is not legal |
| `Linearizability.NoLostUpdate` | crates/smdb-storage/src/redb_engine.rs:422-442 | even without the locks, a committed record starts from the state and version projected at the moment of commit |
| `Acknowledgement.OnlyCommitsWrite` | crates/smdb-engine/src/engine.rs:123-257 | a step of a call either commits one entry and returns it, or changes no table and no log |
| `Acknowledgement.AcknowledgedExactly` | crates/smdb-engine/src/engine.rs:242-257 | in every run each success repeats, field by field, a record of the log that its own call committed or that carries its key, and each record was returned to the call that committed it |
| `Acknowledgement.CommitMoments` | crates/smdb-engine/src/engine.rs:242-257 | every entry was logged by one step of the run, and the commit moment noted for it is the moment of that step |
| `Results.SuccessesAreTrue` | crates/smdb-engine/src/engine.rs:142-155 | in every run each success either names the state projected just before a step of the run, the state and version projected just after it and the log length it reached, that step being its own commit, or equals field by field the record that carries its key |
| `Progress.UndisturbedCall` | crates/smdb-engine/src/engine.rs:123-257 | from every state of every run, a call whose stripe is free and whose steps follow one another without fault returns the specification's answer to that state and makes the specified change |
| `Administration.StatusIsLastMark` | crates/smdb-storage/src/redb_engine.rs:485-502 | in every run the status of a committed effect is that of the last mark since the step that committed it, or Pending if there was none |
| `Administration.UnmarkedIsPublished` | crates/smdb-engine/src/dispatcher.rs:58-68 | a committed effect that nothing marked is pending, and is published by one of the drains that empty the outbox |
| `Administration.LastOneCounts` | crates/smdb-engine/src/engine.rs:97-110 | in every run the definition stored and the guard registered under a name are the last ones, and the engine is shutting down exactly if it was told to |
| `Administration.ShutdownRefuses` | crates/smdb-engine/src/engine.rs:133-135 | a call that begins after a shutdown is refused at once and changes nothing; without one it is taken up |
| `Projection.ProjectionIsFold` | crates/smdb-engine/src/engine.rs:227-240 | in every run a pair's row is the fold of its own records (last target state, number of records, first and last clock, or no row) if and only if no other pair is logged under its key |
| `Projection.NulFreeRows` | crates/smdb-engine/src/engine.rs:227-240 | pairs with NUL-free ids always satisfy that |
| `Projection.RowsOnlyAdvance` | crates/smdb-engine/src/engine.rs:160-167 | over any continuation rows are never removed, keep their creation time and never lose a version |
| `Idempotency.OneRecordPerKey` | crates/smdb-storage/src/redb_engine.rs:457-468 | in every run at most one record carries a key |
| `Idempotency.KeyIsSettled` | crates/smdb-storage/src/redb_engine.rs:457-468 | whatever happens after a key's commit, the key stands for that record |
| `Idempotency.LaterCallsReplay` | crates/smdb-engine/src/engine.rs:142-155 | a call that looks up a settled key, in any continuation, returns field by field the settled record and writes nothing |
| `Replies.FaultsAreCaused` | crates/smdb-engine/src/engine.rs:134-257 | in every run, with or without locks, a reply reports a shutdown only if the engine was told to shut down before the call began, a storage fault only if an operation of that call failed, and goes without the key lookup only if that lookup failed |
| `Replies.BeginMoments` | crates/smdb-engine/src/engine.rs:133-140 | the begin moment named by a reply or a log entry is the moment of a step that began that very call |
| `Replies.RepliesAreExplained` | crates/smdb-engine/src/engine.rs:134-257 | with the locks on, if calls on one key share a stripe, every reply is the specification's between begin and end, or a key raced on another pair, or one of those caused faults, or, after a failed lookup, the rejection of the call without its key or of a key in use; never a storage version conflict |
| `Replies.FaultlessRepliesAreSpecified` | crates/smdb-engine/src/engine.rs:134-257 | if no operation fails and nobody shuts the engine down, every reply is the specification's or the refusal of a key raced on another pair |
| `Locking.NulFreeCallsCompatible` | crates/smdb-engine/src/engine.rs:81-87 | calls with NUL-free ids satisfy that condition for every stripe function |
| `Conflict.ConflictExact` | crates/smdb-storage/src/redb_engine.rs:422-438 | with the locks on, the storage version conflict is unreachable in all runs if and only if pairs sharing a projection key share a stripe |
| `Dispatch.SendBatch` | crates/smdb-engine/src/engine.rs:323-360 | the inner loop sends the passing records of a batch in order, making one effects read for each and one after the other, sends none to a receiver that is gone, and stops at the record it refuses; `Subscriptions.StreamInSequence` says which records pass |
| `Dispatch.DrainOne` | crates/smdb-engine/src/engine.rs:313-365 | the batch loop of one subscriber sends the next stretch of its stream and moves the cursor past it; which read is made for which record is fixed; it stops short of what was logged at its start only if the receiver is gone or its last read of the log failed |
| `Fanout.DrainAll` | crates/smdb-engine/src/engine.rs:312-366 | each subscriber is drained once, in turn, and the count is the number of records sent |
| `Subscriptions.Dispatcher.Subscribe` | crates/smdb-engine/src/engine.rs:281-297 | adds a subscriber whose cursor is where it asked to start, and keeps the object valid: its subscribers are those of a legal history of events |
| `Subscriptions.Dispatcher.Unsubscribe` | crates/smdb-engine/src/engine.rs:299-301 | removes every subscriber with the id and no other, and keeps the object valid |
| `Subscriptions.Dispatcher.FanOut` | crates/smdb-engine/src/engine.rs:312-366 | the half of a pass under the read lock: drains each subscriber once, names the dead, counts the records sent, and keeps the object valid |
| `Subscriptions.Dispatcher.Prune` | crates/smdb-engine/src/engine.rs:368-371 | the half under the write lock: removes whoever has the id of a dead subscriber, those who subscribed in between included |
| `Subscriptions.Dispatcher.Pass` | crates/smdb-engine/src/engine.rs:307-373 | a pass with nothing in between: both halves, and the count of records sent |
| `Subscriptions.Dispatcher.Delivers` | crates/smdb-engine/src/engine.rs:307-373 | every subscriber of a valid object that is not about to be pruned has been sent exactly its part of the stream |
| `Fanout.Retain` | crates/smdb-engine/src/engine.rs:368-371 | keeps exactly the subscribers whose id is not listed |
| `Subscriptions.StreamsAreExact` | crates/smdb-engine/src/engine.rs:307-373 | in every run of subscriptions, commits, outbox drains and passes with any failing reads, each live subscriber has been sent exactly the filtered log between its start and its cursor, in order, without gap or duplicate (`Subscriptions.FilterDecides` spells the filter out); a record lacks its effects only if the read made for that record failed |
| `Subscriptions.OwnReadDecides` | crates/smdb-engine/src/engine.rs:330-333 | names that read: a drain's (i + 1)-st record loses its effects exactly if the read after i others and one log read per 256 records begun went unanswered |
| `Subscriptions.AnsweredStreams` | crates/smdb-engine/src/engine.rs:307-373 | as long as every effects read is answered, what a live subscriber was sent is the stream itself |
| `Subscriptions.PassReachesEnd` | crates/smdb-engine/src/engine.rs:315-365 | over a log that is not growing, a drain whose last read of the log was answered ends with the cursor at the log end, or unchanged if already beyond |
| `Subscriptions.SecondPassIsIdle` | crates/smdb-engine/src/engine.rs:315-365 | draining a subscriber that is up to date sends nothing and changes nothing |
| `Subscriptions.IdlePassReportsZero` | crates/smdb-engine/src/engine.rs:307-373 | a pass over subscribers that are up to date changes none of them and reports 0 |
| `Subscriptions.StartsWhereAsked` | crates/smdb-engine/src/engine.rs:281-297 | a subscription delivers the records after the sequence it named, unless that is 2^64 - 1 |
| `Subscriptions.LargestStartBeginsAgain` | crates/smdb-storage/src/redb_engine.rs:297-300 | from 2^64 - 1 the stream starts over from the beginning |
| `Subscriptions.StreamInSequence` | crates/smdb-engine/src/engine.rs:315-365 | the stream has exactly the records of the stretch whose machine is the one asked for, or all if none was, each once, in increasing sequence |
| `Subscriptions.EffectsAsDeclared` | crates/smdb-engine/src/engine.rs:215-225 | in every run of concurrent calls, each record's change carries, as a multiset, one effect for each rule of its event in the definition its call used, with that rule's name and payload |
| `Subscriptions.RunFeeds` | crates/smdb-engine/src/engine.rs:307-373 | wherever a dispatcher's reads fall between the steps of a run of concurrent calls, the run answers them as the stream theorem expects |
| `Subscriptions.DeliveredAsCommitted` | crates/smdb-engine/src/engine.rs:307-373 | every record in a subscriber's channel agrees field by field with a committed transition of the run, is of the machine asked for, was made by a rule of a definition stored during its call, and has exactly the effects that definition declares, or none if its own effects read failed |
| `Subscriptions.FilterDecides` | crates/smdb-engine/src/engine.rs:322-330 | over every run, a live subscriber has been sent only records of the machine it asked for, and every such record between its start and its cursor exactly once |
| `Survival.NothingToTheGone` | crates/smdb-engine/src/engine.rs:354-360 | in every run no subscriber is sent more records than its receiver stayed for |
| `Survival.OnlyTheGoneDie` | crates/smdb-engine/src/engine.rs:354-371 | a pass marks for removal only ids of subscribers that have got all their receiver stayed for |
| `Survival.TheGoneAreFound` | crates/smdb-engine/src/engine.rs:354-360 | a drain with a wanted record for a receiver that is gone finds it dead, unless its last read of the log failed |
| `Survival.StaysSubscribed` | crates/smdb-engine/src/engine.rs:299-371 | in every continuation a subscription goes on, with all it was sent, until it is cancelled by its id or the receiver of a subscriber with the same id goes away |
| `Replay.ReplayRebuilds` | crates/smdb-engine/src/engine.rs:315-365 | applying the full unfiltered stream rebuilds state and version of every pair if and only if no logged id contains NUL |
| `Replay.SubscriberRebuilds` | crates/smdb-engine/src/engine.rs:315-365 | the same for the records a caught-up subscriber was sent, whichever effects reads failed |
| `Replay.RunRebuilds` | crates/smdb-engine/src/engine.rs:315-365 | the same for a subscriber of any dispatcher that a run of concurrent calls feeds, against the tables of that run |
| `Replay.ResubscribingContinues` | crates/smdb-engine/src/engine.rs:281-297 | what was received up to any record, followed by what a new subscription from that record's sequence delivers, is one uninterrupted delivery, filtered or not |
| `Framing.TagsInvert` | crates/smdb-proto/src/frame.rs:38-62 | a byte decodes to a tag exactly if it is the tag's byte |
| `Framing.NextInvertsEncoded` | crates/smdb-proto/src/frame.rs:81-107 | the decoder takes a frame off the front exactly if the bytes start with its encoding and its body fits |
| `Framing.NextDecides` | crates/smdb-proto/src/frame.rs:81-107 | more bytes are asked for exactly while the header or a fitting body is incomplete; decoding stops exactly at a length beyond the limit, naming it, or at a complete body under a byte that no tag has, naming that byte |
| `Framing.LengthField` | crates/smdb-proto/src/frame.rs:81-107 | the length is four bytes, most significant first |
| `Framing.ChunkingIsIrrelevant` | crates/smdb-proto/src/frame.rs:81-107 | for every byte stream and every chunking, the frames and the first error are those of decoding the stream whole |
| `Framing.RoundTrip` | crates/smdb-proto/src/frame.rs:81-120 | decoding concatenated encodings returns the list with nothing left over if and only if every body is at most 16 MiB |
| `Framing.OversizeStops` | crates/smdb-proto/src/frame.rs:113-120 | the encoding of a larger body, below 2^32 bytes, stops the peer there with FrameTooLarge, whatever follows |
| `Framing.Decode` | crates/smdb-proto/src/frame.rs:81-107 | takes exactly the encoding of the returned frame off the buffer, and leaves the buffer alone when it returns none or an error |
| `Framing.Encode` | crates/smdb-proto/src/frame.rs:113-120 | appends the encoding to the buffer |
| `Framing.DecodeAvailable` | crates/smdb-proto/src/frame.rs:81-107 | the read loop yields the frames, leftover bytes and first error of the whole buffer |
| `Correlation.RunKeeps` | crates/smdb-sdk/src/connection.rs:165-292 | in every interleaving of callers, reader, server loop and forwarders, pending channels are empty and filed under their caller's id, and each frame with an id truthfully answers the command it names |
| `Correlation.RepliesAreOwn` | crates/smdb-sdk/src/connection.rs:241-253 | a caller that receives a frame receives the server's truthful reply to its own command |
| `Correlation.RepliesInCommandOrder` | crates/smdb-wire/src/server.rs:281-365 | replies with an id leave the server in the order of the commands they answer |
| `Correlation.CommandsAreAnswered` | crates/smdb-wire/src/server.rs:281-514 | serving a command puts on the wire, for a request, exactly one frame: a result or rejection under its caller's id, or an error without id if it did not decode, its reply did not encode, or anything but a transition was refused; one pong for a ping; nothing for an acknowledgement or unsubscription; an error for anything else |
| `Correlation.RepliesAreTruthful` | crates/smdb-wire/src/server.rs:386-514 | in every run a frame with an id is a Result exactly if its command decoded, was accepted and its reply encoded, and a Rejection exactly if it is a transition that decoded and was refused |
| `Correlation.ResultMeansAccepted` | crates/smdb-sdk/src/connection.rs:191-193 | a caller that received a result had its command accepted; one that received a rejection had its transition refused |
| `Failures.FailuresAreCaused` | crates/smdb-sdk/src/connection.rs:172-205 | in every run of up to 2^64 requests, a call times out only after its timer ran out, and reports a lost connection only if the connection is dead or its own write failed |
| `Correlation.ReadIsReceived` | crates/smdb-sdk/src/connection.rs:241-253 | in every run, a reply read while its caller still waits becomes that caller's outcome, and nothing stays pending under its id |
| `Correlation.OutcomeIsFinal` | crates/smdb-sdk/src/connection.rs:191-205 | once a call has an outcome, no continuation changes it |
| `Correlation.DeadForGood` | crates/smdb-sdk/src/connection.rs:287-291 | once dead, in every continuation the connection is dead, nothing is pending, and every waiting caller's channel is filled or closed |
| `Correlation.CorrelationExact` | crates/smdb-sdk/src/connection.rs:208-211 | replies are always the caller's own on connections of up to n requests if and only if n is at most 2^64 |
| `Connection.SharedState.NextRequestId` | crates/smdb-sdk/src/connection.rs:208-211 | hands out the counter's value and advances it modulo 2^64, as the allocation step does |
| `Connection.SharedState.Insert` | crates/smdb-sdk/src/connection.rs:172-180 | files the channel, or refuses on a dead connection, as the registration step does |
| `Connection.SharedState.Route` | crates/smdb-sdk/src/connection.rs:241-284 | hands a frame to the channel under its id and removes it, as the reading step does |
| `Connection.SharedState.Remove` | crates/smdb-sdk/src/connection.rs:199-204 | drops the timed-out channel, as the expiry step does |
| `Connection.SharedState.Close` | crates/smdb-sdk/src/connection.rs:287-291 | marks the connection dead and drops every pending channel, as the stopping step does |

## Left out

- `append_transition`, `insert_effects`, `upsert_entity_state`: back-fill operations that the engine never calls; they write some tables without the others, so the agreement with the log does not cover them.
- That an effect marked published has already been delivered: a commit can land between the fan-out and the outbox read, so it does not hold.
- Version-specific machine lookup and refusal of redefinitions: described in comments, not implemented.
- `MachineBuilder`: sets fields and then validates; `Machine.Validate` is the part with content.
- Removal of subscriptions at session end: the session's subscription table is never filled.
- That every request of a client is answered: `Error` frames carry no request id and are dropped, so only the safety half of correlation holds.
- Cancelling a client call by dropping its future, connection retry, the handshake, authentication, TLS, payload decoding and rejection codes.
- redb itself, MessagePack and JSON encoding, sockets and task scheduling, which appear only as the assumptions above.
- The stripe hash: any function will do for all statements; its distribution is not modelled.
- The reader's end-of-stream check for leftover bytes, which belongs to the framing library.
- Command-line tools, daemon configuration, metrics and the write-ahead-log stub.
- Storage.RedbEngine.GetHistory: equates the result with the pair's history only for logs without NUL in their ids; `Reads.HistoryReadExact` shows that no more holds.
- Engine.Engine.Transition: runs one call at a time on the object; interleaved calls are covered by the step system of `Concurrency`, where the tables are a value and not an object updated in place.
- Correlation.RepliesAreOwn: assumes at most 2^64 requests on the connection; `Correlation.CorrelationExact` shows that the bound is exact.
- Failures.FailuresAreCaused: assumes at most 2^64 requests on the connection; beyond that ids repeat and a caller can lose its channel to another (`Correlation.CorrelationExact`).
