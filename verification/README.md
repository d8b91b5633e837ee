# Verification of the event store

A Dafny 4.11 model of the event-sourcing framework's core, with proofs over every input, every reachable state
and every interleaving. `dafny verify dfyconfig.toml` checks the whole project.

## What is modelled

- **Stream identities and the store** (`Basics`, `StreamIds`, `Store`, `StoreLaws`, `AppendLaws`). The tables (events, outbox,
  unique claims, state cache) and the Append transaction: constraint operations in order, the insert loop with
  its unique keys, hash chaining, outbox rows, the cache row. `EventStore` is the object with the tables;
  `AppendTx` is the transaction as a function; when it commits, and what its errors mean, is stated from its parameters
  and the tables alone.
- **The aggregate runtime** (`Aggregate`, `Interleaving`, `InterleavingProofs`, `Serializability`, `CacheLaws`,
  `HandleLaws`, `RebuildFolds`, `AggregateMethods`, `RuntimeAlone`). Load, Handle and RebuildStateCache split at every
  read and write. `Interleaving.Run` runs any sequence of those steps by any number of handlers and rebuilds, with wipes
  and outside appends; run without a break they are the calls themselves. Main results: every run is equivalent to the
  serial run of its committed commands, every usable cache row is the fold of exactly its first Version events, Load always equals full replay, and Handle answers exactly what the stream,
  the decider and the store call for.
- **The hash chain** (`Chain`, `ChainStore`). Verification, the commitment of the head hash to the whole history,
  tamper detection, the rebuild pass, and the rebuild against the tables.
- **The Party aggregate** (`Party`, `PartyFields`, `PartyClaims`, `PartyTraces`). The maker-checker decider. Every field is
  what the last event that speaks of it says, a command is accepted exactly when it goes through, in every reachable
  store the email claims are exactly the emails of the live parties, and every reachable log obeys the
  maker-checker rules.
- **The outbox** (`Shards`, `Backoff`, `Outbox`, `OutboxOrder`, `OutboxRuns`, `OutboxDrain`, `OutboxPage`). Sharded runners,
  publish and mark failures, crashes, dead-lettering, backoff and operator actions as interleaved steps; the
  order of delivery per stream with its exact condition; the Run loop with its termination; the delay with the
  exact settings under which 64-bit arithmetic does not spoil it.
- **The command bus** (`BusNames`, `Bus`, `BusInvariant`, `BusSteps`, `BusFuture`, `BusLaws`, `BusTheorems`,
  `BusProgress`, `BusMethods`, `BusExample`). HandleCmd on a journaling runtime as a machine with a control stack, so that
  compensation can nest to any depth. It may be restarted from its journal at any point while other writers commit. When a
  move fails, and that a dispatch with bounded nesting returns, are theorems too.
- **Crypto-shredding** (`Shred`, `ShredLaws`, `ShredMethods`). Key-encryption keys, wrapped data keys, the data
  key cache, field framing, rotation, rewrapping, forgetting and the retention sweep.
- **Projections** (`Projection`, `ProjectionProgress`, `ProjectionRunners`, `ProjectionShards`, `Linked`, `LinkedHost`).
  The cursor protocol, how far a run gets and that it catches up, several runners of one projection, sharding, linked
  projections with their uniqueness claim, and a linked projection inside the projector that hosts it.
- **The state mirror** (`Mirror`, `MirrorTenants`, `MirrorRuns`, `MirrorOrder`). Concurrent coalescing drains of any
  tenants, the versioned receiver with its secondary index, when a position stands for a tenant's own row, and which
  Runs of a drain stop.

Time, randomness, the network, the publisher, subscribers and codecs are parameters: scripts, draws and functions.
SHA-256 is a function of which only the digest size is used; statements that need more return a pair of inputs
and say that it is a collision otherwise. AES-GCM (NIST SP 800-38D) is a pair of functions where opening undoes
sealing.

## Where the code does not do what its documentation says

- `OutboxRuns.OrderBreaks`: the store interface for pending rows (es/outbox.go:19-30) does not ask for the head
  rule that both shipped adapters implement. Without it, with a backoff and with retries, a later row of a stream
  is published while an earlier one waits. `OutboxOrder.InOrder` is the exact condition.
- `OutboxRuns.ReplayBreaksOrder`: where dead letters do not pause their stream, replaying a dead letter during a
  Run lets the row after it be published first. `OutboxRuns.PlainOrderIff`: the plain order holds over every run
  if and only if the first condition holds and dead letters pause their stream.
- `OutboxDrain.OtherTenantsCrowdOut`: the page limit is applied before the tenant filter, so a drain scoped to one
  tenant can read an empty page and stop while a row of that tenant is due. `OutboxDrain.PageHolds`: a selected row
  of the tenant is on the page if and only if fewer than the limit of selected rows of any tenant precede it.
- `OutboxDrain.FailingBatchPublishes`: a Run that ends with an error drops the count of what its last batch published
  (outbox/drain.go:147-150), so it can report fewer rows than it published. `OutboxDrain.Drain.Run`: the count it returns
  is that of the offers of all earlier batches; it is complete if and only if the Run ends without an error or that batch
  published nothing.
- `Backoff.LargeBaseOverflows` and `Backoff.SmallBaseOverflows`: the doubled delay can wrap to a negative one, for a
  base above half of the largest duration and also for a small base whose cap lets a doubling beyond half through.
  `Backoff.DelayIsIdealIff`: the documented delay holds for every number of failures if and only if the settings
  fit. `Backoff.UncappedIffRepresentable`: without a cap, if and only if base * 2^(attempts-1) is a 64-bit duration.
- `MirrorRuns.UndecodableRowGoesOn` and `MirrorRuns.DownPublisherGoesOn`: the Run loop of the state drain ends at a
  batch that counts nothing, and failures count, so one row that never gets through keeps it going for ever.
  `MirrorRuns.UnshardedStopsIff`: unsharded, Run stops if and only if every stream behind is one whose delivery
  moves its position. `MirrorRuns.EveryRunStopsIff`, `MirrorRuns.NoRunStopsIff` and `MirrorRuns.OrderedRunStopsIff`
  give the sharded conditions, where full pages of other shards' streams can end a Run.
- `MirrorTenants.SharedIdLosesRow`: a drain may serve every tenant, and the example receiver keys its rows by the
  stream id alone, so a position can be recorded for a row that the receiver never had.
  `MirrorTenants.OwnRowsIffStreamsApart`: positions stand for the tenant's own row over every run if and only if no
  stream id is mirrored under two tenants.
- `ProjectionRunners.CheckpointFalls`: without a lock two runners of one projection are not serialized by the
  database (projection/runtime.go:66-68), and a save overwrites the checkpoint, so it can fall. Coverage and order are
  not lost (`ProjectionRunners.RunnersStayCovered`), and it falls only after another runner raised it
  (`ProjectionRunners.FallsOnlyIfOvertaken`).
- `RebuildFolds.MixedStreamLoads`: a cache rebuild skips events that do not decode and still writes the version of
  the last one that does, so Load can succeed where full replay fails. `RebuildFolds.RebuiltLoadIff` is the exact
  condition.
- `Serializability.RebuiltRowUsable`: rows written by RebuildStateCache carry schema version 1, so they are used
  by Load if and only if the runtime's schema version is 0 or 1.
- `PartyClaims.ActorlessRegisterHappens`: a Register without an actor id commits and claims the email for a stream
  that still counts as unregistered. `PartyClaims.RegisterNeedsActor`: the claims stay exact if and only if the actor
  id is there.
- `ChainStore.UnhashedHeadBreaks`: appending to a stream whose last row has no hash yet chains the new rows to the
  zero hash, and a later chain rebuild then fails. `ChainStore.AppendThenRebuild`: it succeeds if and only if the
  head had a hash, short of a collision.
- `BusExample.EmptyErrorIsReached`: a subscriber that runs out of attempts with an error whose text is empty is taken
  for a success, and is neither dead-lettered nor compensated. `BusTheorems.EmptyErrorIsLost`: a subscriber is
  settled if and only if that did not happen or its policy is to drop.
- `ShredLaws.ForgetIsFinalIffKnown`: forgetting a subject that has no key row leaves no tombstone; the next encrypt
  succeeds.
- `ShredLaws.SharedCacheKeyExample`: the key cache joins tenant and subject with a bar, so pairs whose tenant holds a
  bar can share an entry. Then a field can become unreadable (`ShredLaws.SharedCacheKeyLosesData`), one pair opens the
  other's field (`ShredLaws.SharedCacheKeyOpensOther`), and a forgotten subject can be encrypted for again
  (`ShredLaws.SharedCacheKeyRevivesForgotten`). Fields stay readable, forgetting is final and pairs are isolated, each if
  and only if no two pairs in use share a key (`ShredLaws.ReadableIffKeysApart`, `ShredLaws.ForgettingIffKeysApart`,
  `ShredLaws.IsolationIffKeysApart`); tenants without a bar never do (`ShredLaws.BarFreeTenantsApart`).

## Model

| member | source | states |
|---|---|---|
| StreamIds.ParseCanonicalRoundTrip | es/streamid.go:34-77 | parsing a canonical id yields an identity exactly when that identity is valid and has that canonical form |
| StreamIds.StreamKeyInjective | outbox/drain.go:272-276 | no two valid streams share a key of tenant, bar and canonical id, although tenants are free text |
| Store.EventStore.Append | adapters/storage/sqlite/append.go:40-219 | the transaction on the tables is AppendTx: new tables and reply, error cases included |
| Store.EventStore.BackfillEventHash | adapters/storage/sqlite/chain.go:24-38 | only rows with that id and an empty hash are written; success exactly when there is one |
| StoreLaws.AppendAddsRows | adapters/storage/sqlite/append.go:96-186 | a commit adds one row per event, numbered, positioned and chained, with no key clash, and one outbox row each |
| StoreLaws.AppendAppliesOps | adapters/storage/sqlite/append.go:61-94 | a commit ran its constraint operations in order, all of them successfully |
| StoreLaws.AppendGrowsOneStream | adapters/storage/sqlite/append.go:108-186 | a commit extends its own stream's log by its batch and no other stream's |
| StoreLaws.CommitExpectsHead | adapters/storage/sqlite/append.go:148-171 | the unique key makes a commit that did not expect too much expect exactly the head |
| StoreLaws.AppendKeepsContiguity | adapters/storage/sqlite/append.go:108-186 | after a commit versions are 1..n exactly when the expected version was not beyond the head |
| StoreLaws.ReadStreamIsSuffix | adapters/storage/sqlite/read.go:19-50 | reading after a version returns the rest of the stream's log |
| AppendLaws.OpsRun | adapters/storage/sqlite/append.go:61-94 | the constraint operations run in order up to the first that cannot: a claim of what is held when it is reached, or an unknown operation; what they leave held is what the last operation on each claim says |
| AppendLaws.AppendCommitsIff | adapters/storage/sqlite/append.go:40-219 | an append commits exactly when its id is valid, it has events, every claim is free when it is reached, its versions and ids are free and distinct and every row can be hashed; the reply numbers the batch |
| AppendLaws.AppendErrorTells | adapters/storage/sqlite/append.go:40-219 | what each error of an append means for its parameters and the tables |
| AppendLaws.CommitLeaves | adapters/storage/sqlite/append.go:61-219 | a commit leaves held exactly the claims its operations say, and touches no cached state but its own stream's, which gets the given bytes, type, terminal flag and schema version at the last version |
| AggregateMethods.LoadStream | aggregate/runtime.go:153-214 | the load loop computes Load: usable cache row, then the tail, with every fallback |
| AggregateMethods.EncodeBatch | aggregate/runtime.go:407-449 | the encode loop encodes every event in order, or fails at the first that does not encode |
| AggregateMethods.FoldBatch | aggregate/runtime.go:462-466 | the fold loop evolves the loaded state by the batch |
| AggregateMethods.PlanCommand | aggregate/runtime.go:395-477 | the steps of Handle between Load and Append compute the plan in the source's order; what the plan answers is stated without it in HandleLaws.HandleAnswers |
| AggregateMethods.HandleCommand | aggregate/runtime.go:379-480 | the method on the tables is Load, plan and Append; its outcome and rows are those of HandleLaws.HandleAnswers and HandleLaws.CommittedRows |
| HandleLaws.HandleAnswers | aggregate/runtime.go:379-480 | the outcome is exactly what the stream, the decider and the store call for: load failure, terminal, rejected, no change, encode failure, store refusal or commit, each if and only if its own condition holds |
| HandleLaws.ReachableHandleAnswers | aggregate/runtime.go:379-480 | the same in every reachable store |
| HandleLaws.CommittedRows | aggregate/runtime.go:407-449 | a commit adds one row per decided event right after the head, with the event's encoding and the ids, time, correlation, causation, command and actor of the call |
| RuntimeAlone.HandlesAlone | aggregate/runtime.go:379-480 | a handler whose steps follow each other without a break does exactly what Handle does |
| RuntimeAlone.RebuildsAlone | aggregate/rebuild.go:47-163 | so does a rebuild whose steps follow each other, for every page size and write order, with the wipe, folds and rows of RebuildStateCache |
| AggregateMethods.FoldAllStreams | aggregate/rebuild.go:82-125 | the paged global read ends with, for each covered stream, exactly the fold of its events that decode at the version of the last of them; the full fold where no stream mixes both kinds |
| AggregateMethods.WriteRows | aggregate/rebuild.go:137-162 | the write loop upserts one row per folded stream and counts them, and fails exactly when one of them does not encode |
| AggregateMethods.RebuildStateCache | aggregate/rebuild.go:47-163 | wipe, fold, write: each reply exactly when its condition holds; on success every covered stream with an event that decodes has the row of that fold, and of the other rows exactly those of the type in scope are gone |
| RebuildFolds.SkipFoldEnds | aggregate/rebuild.go:99-125 | the entry sits at the last event that decodes, and there is none exactly when no event does |
| RebuildFolds.SkipFoldIsReplay | aggregate/rebuild.go:99-125 | where every event decodes the entry is the full replay |
| RebuildFolds.RebuiltLoadIff | aggregate/rebuild.go:100-121 | Load from a rebuilt row equals full replay exactly when the row is not used, or every event decodes, or the last one does not; otherwise full replay fails and Load returns the entry |
| RebuildFolds.MixedStreamLoads | aggregate/rebuild.go:100-121 | a stream with an unknown event before a known one: Load succeeds at the head, full replay fails |
| Serializability.StepKeepsInv | aggregate/runtime.go:379-480 | every step of every handler, rebuild, wipe or outside append keeps the invariant of events, cache and readers |
| Serializability.RunKeepsInv | aggregate/runtime.go:153-480 | the invariant holds after every interleaving |
| Serializability.LoadEqualsFullReplay | aggregate/runtime.go:153-214 | in every reachable store cache plus tail equals full replay, and fails exactly when an event does not decode |
| Serializability.UsableRowsAreFolds | aggregate/runtime.go:157-172 | every usable cache row is the fold of exactly its first Version events |
| Serializability.CachingCommitLeavesHeadRow | aggregate/runtime.go:462-479 | a caching commit leaves the row at EndVersion with the decided state |
| CacheLaws.CachedRowsTell | aggregate/runtime.go:462-479 | over every interleaving each cached row, committed or rebuilt, is the encoding of a state with its type and terminal flag |
| CacheLaws.TerminalFlagIsExact | aggregate/runtime.go:462-479 | a usable row is the encoding of the fold at its version and is flagged terminal exactly when that fold is |
| Serializability.RebuiltRowUsable | aggregate/rebuild.go:148-156 | a rebuilt row is used by Load exactly when the schema version is 0 or 1 |
| Serializability.Serializable | aggregate/runtime.go:379-480 | every interleaving has the same store, cache aside, as the serial run of its committed commands, and all of them commit serially |
| Serializability.EachBatchIsItsDecision | aggregate/runtime.go:395-479 | each committed batch is Decide on the fold of everything before it in its stream, never after a terminal state; its rows decode to it event by event, extend its stream, and stand in the interleaved store right after all earlier commits |
| Serializability.StaleSubmitChangesNothing | aggregate/runtime.go:451-480 | a handler whose stream has moved on fails and changes nothing |
| Serializability.VersionsAreContiguous | adapters/storage/sqlite/append.go:108-186 | in every reachable store versions are 1..n per stream and positions number the rows |
| Chain.VerifyStreamChain | es/chain.go:97-114 | the verify loop computes Verify |
| Chain.IntactIffLinked | es/chain.go:97-114 | a stream verifies exactly when every row carries the hash of its fields and its predecessor's hash |
| Chain.FirstBadLink | es/chain.go:97-114 | verification reports the first wrong row by its version |
| Chain.HeadHashCommitsToHistory | es/chain.go:36-83 | two verifying streams with contiguous versions and the same last hash agree on every hashed field of every event, or a collision can be read off them |
| Chain.TamperDetected | es/chain.go:97-114 | changing one row's hashed fields makes verification fail at exactly that version, or exhibits a collision |
| Chain.RebuildLaws | es/chain.go:168-194 | a rebuild overwrites no hash; the rows it passed verify; it succeeds exactly when the stored hashes agree with recomputation, with counts that add up |
| Chain.SecondPass | es/chain.go:168-194 | a second pass over a rebuilt stream writes nothing and verifies every row |
| ChainStore.AppendKeepsChain | adapters/storage/sqlite/append.go:96-171 | Append at the head of a verifying stream leaves a verifying stream |
| ChainStore.EveryReachableStreamVerifies | adapters/storage/sqlite/append.go:96-171 | in every reachable store every stream verifies |
| ChainStore.AppendThenRebuild | adapters/storage/sqlite/append.go:96-105 | after an append to a stream whose hashes agree, a rebuild succeeds exactly when the head already had a hash |
| ChainStore.AppendToUnhashedHead | adapters/storage/sqlite/append.go:96-105 | one unhashed row that rebuilds, then an accepted append: the rebuild is broken at version 2 unless the digest ignores what it is chained to |
| ChainStore.UnhashedHeadBreaks | adapters/storage/sqlite/append.go:96-105 | a digest for which that rebuild is broken |
| ChainStore.BackfillOneRow | adapters/storage/sqlite/chain.go:24-38 | a backfill of one row changes that row of its stream and no other stream |
| ChainStore.HashesAreKept | adapters/storage/sqlite/chain.go:24-38 | over any sequence of backfills a stored hash is never overwritten, and rows that no call names stay as they are |
| ChainStore.RebuildRows | es/chain.go:168-194 | the rebuild loop leaves the events table with exactly the rows it filled, and the counts and outcome of the rebuild |
| ChainStore.RebuildStreamChain | es/chain.go:168-194 | the rebuild on the tables replaces the stream's log by the rebuilt one and leaves other streams alone |
| Party.SearchPending | examples/party/state.go:30-39 | the search loop finds the first pending change with that id |
| Party.SearchKind | examples/party/state.go:19-28 | the search loop tells whether a change of that kind is pending |
| Party.PartyObject.Drop | examples/party/state.go:30-43 | the pending change is removed in place |
| Party.PartyObject.Fold | examples/party/decider.go:251-325 | the in-place update computes Evolve, whose fields are those of PartyFields.FoldedFields |
| PartyFields.FoldedFields | examples/party/decider.go:251-325 | every field of a folded party is what the last event of the log that speaks of it says, or its initial value |
| PartyFields.CommandDoes | examples/party/decider.go:27-238 | a command is accepted exactly when it goes through in the state it meets; folding its decision leaves the state the command asks for, with nothing else changed, and the event names who did it and why as the command does |
| PartyFields.RejectionExplains | examples/party/decider.go:27-238 | the reason of a rejection is true of the command and the state it met |
| Party.DecisionMovesEmail | examples/party/decider.go:106-192 | the constraint operations of a decision are exactly those that match what its event does to email ownership |
| PartyClaims.NoSharedEmail | examples/party/decider.go:124-145 | with exact claims no two live parties of a tenant share an email |
| PartyClaims.CommitKeepsExact | examples/party/decider.go:106-192 | a committed party command keeps the claims exact |
| PartyClaims.ForeignAppendKeepsExact | adapters/storage/sqlite/append.go:65-87 | another aggregate's append keeps the claims exact |
| PartyClaims.RunKeepsPartyInv | examples/party/decider.go:27-118 | the claims are exact after every interleaving |
| PartyClaims.EmailsAreUnique | examples/party/decider.go:106-192 | in every reachable store the claims are exactly the emails of registered, not closed parties, and no two share one |
| PartyClaims.RegisterNeedsActor | examples/party/decider.go:124-145 | a committed Register keeps the claims exact exactly when it carries an actor id |
| PartyClaims.ActorlessRegister | examples/party/decider.go:124-145 | on the empty store every well-formed Register without an actor id commits and leaves a claim that is nobody's |
| PartyClaims.ActorlessRegisterHappens | examples/party/decider.go:124-145 | a runtime and a command for which that happens |
| PartyTraces.ReachableLogsAreDecided | examples/party/decider.go:27-118 | every event of every reachable party log was decided on the fold of the events before it |
| PartyTraces.ClosesItsProposal | examples/party/decider.go:165-228 | each applied, rejected or withdrawn event closes an earlier open proposal with its id: applied and rejected by someone else, applied with the proposed change, withdrawn by the proposer |
| PartyTraces.ClosedOnce | examples/party/decider.go:165-228 | no two events close the same proposal |
| PartyTraces.ClosedStaysClosed | examples/party/state.go:41-43 | a proposal that is no longer open stays closed |
| PartyTraces.LedgerIsPending | examples/party/decider.go:251-325 | the pending list of the folded state is the ledger of open proposals of the log |
| PartyTraces.OneOpenPerKind | examples/party/decider.go:147-163 | at most one proposal per kind is open at any time |
| PartyTraces.ClosedIsAbsorbing | examples/party/decider.go:230-238 | after closing, the status stays closed and only leftover proposals are rejected or withdrawn |
| Shards.Write | outbox/drain.go:283-287 | the hash loop over the bytes computes the byte-at-a-time fold |
| Shards.Utf8RoundTrip | outbox/drain.go:283-287 | the bytes of a hashed string are its UTF-8 form: each character is read back from its bytes, whose lead byte tells their number |
| Shards.ShardFormsAgree | state_stream/drain.go:229-238 | hashing tenant, bar and stream one after the other gives the shard of hashing the whole key |
| Shards.ShardsPartition | projection/runtime.go:267-276 | every stream is in exactly one of the shards |
| Backoff.ComputeDelay | outbox/drain.go:292-310 | the doubling loop with 64-bit wrap-around computes Delay |
| Backoff.DelayIsIdeal | outbox/drain.go:292-310 | for positive settings up to half of the largest duration the delay is min(max, base * 2^(attempts-1)) |
| Backoff.DelayMonotone | outbox/drain.go:292-310 | for settings that fit, more failures never shorten the delay |
| Backoff.LargeBaseOverflows | outbox/drain.go:292-310 | a base beyond half of the largest duration never fits: the second failure gives a negative delay, whatever the cap |
| Backoff.FitsMeans | outbox/drain.go:292-310 | settings fit exactly when the base is at most half and no base * 2^k lies between half and the cap |
| Backoff.DelayIsIdealIff | outbox/drain.go:292-310 | with a positive base and cap the delay is min(max, base * 2^(attempts-1)) after every number of failures exactly when the settings fit; otherwise some number of failures gives a negative delay |
| Backoff.SmallBaseOverflows | outbox/drain.go:292-310 | a base of a quarter with a cap just above half: the third failure gives a negative delay |
| Backoff.UncappedIffRepresentable | outbox/drain.go:292-310 | without a cap the delay is base * 2^(attempts-1) exactly when that is a 64-bit duration |
| OutboxOrder.PageShape | adapters/storage/sqlite/queries/outbox.sql:20-75 | a pending page is a prefix of the selected rows in position order |
| OutboxPage.OnPageIff | adapters/storage/sqlite/queries/outbox.sql:18-71 | a row is on the page exactly when it is unpublished, has attempts left, is due, heads its stream under the head rule, belongs to the tenant, and fewer such rows of any tenant than the page is long precede it |
| OutboxPage.OperatorReleases | adapters/storage/sqlite/queries/outbox.sql:164-178 | a replay or abandon changes the columns of its row only, and releases the stream from quarantine exactly when no other row of it is dead-lettered |
| OutboxOrder.StepKeepsOutInv | outbox/drain.go:207-270 | appends, page reads, row handling, crashes and operator actions keep the order invariant |
| OutboxOrder.DeliveryInOrder | outbox/drain.go:110-270 | over every interleaving, a row is offered only when every earlier row of its stream is published or abandoned, or, only if dead letters do not quarantine, this Run saw it dead-lettered and it still is or was replayed since |
| OutboxRuns.OrderBreaks | outbox/drain.go:207-310 | without the head rule, with a backoff and with retries, some run offers a row while an earlier one is owed |
| OutboxRuns.ReplayBreaksOrder | adapters/storage/sqlite/queries/outbox.sql:164-170 | for every setting where dead letters do not quarantine, some run offers a row after an earlier one was replayed |
| OutboxRuns.PlainOrderIff | outbox/drain.go:110-270 | no run offers a row while an earlier one is owed, exactly when no live row can be passed over and dead letters quarantine |
| OutboxRuns.FailedStreamIsSilent | outbox/drain.go:207-270 | once a row fails without being skipped over as a dead letter, no row of its stream is offered again in that Run, with any backoff and whatever others do meanwhile |
| OutboxRuns.OfferHaltsIff | outbox/drain.go:225-267 | an offer halts its stream exactly when it failed and was not a last attempt whose dead letter is skipped over; no other stream is halted and the Run goes on with the rest of the page |
| OutboxRuns.OfferedRow | outbox/drain.go:225-310 | handing a row to the publisher changes that row only: published, or one more attempt and due again after min(max, base * 2^(attempts-1)), or nothing if the mark was not applied |
| OutboxRuns.AppendEnqueues | adapters/storage/sqlite/append.go:177-186 | a committed Append adds one fresh row per event in order, naming the event, its stream, version and position, whatever the drain did to older rows |
| OutboxDrain.BatchLaws | outbox/drain.go:207-270 | a batch offers no row twice, touches only offered rows, and each offer lowers the number of live rows in streams that are not halted |
| OutboxDrain.IdleBatch | outbox/drain.go:207-270 | a batch that offered nothing left the table alone and had only rows of halted streams or other shards |
| OutboxDrain.BatchCounts | outbox/drain.go:207-270 | a batch counts the offers that were published and marked, and ends early exactly at an offer whose mark reported an error |
| OutboxDrain.FailingBatchPublishes | outbox/drain.go:143-150 | a batch that published a row and then fails, so that its count is dropped |
| OutboxDrain.PageHolds | adapters/storage/sqlite/outbox.go:15-40 | a selected row of the tenant is on the page exactly when fewer than the limit of selected rows of any tenant precede it |
| OutboxDrain.OtherTenantsCrowdOut | adapters/storage/sqlite/outbox.go:27-31 | for every setting with a tenant, a table whose page is empty although a fresh row of the tenant is due |
| OutboxDrain.Drain.HandleRow | outbox/drain.go:225-267 | one offered row: mark, attempts, next attempt and halting |
| OutboxDrain.Drain.RunBatch | outbox/drain.go:207-270 | the batch loop is Batch, with its counters and error exits |
| OutboxDrain.Drain.Run | outbox/drain.go:110-166 | Run stops, offers each row at most once and no more than were owed; it ends with an error exactly at the first offer whose mark reported one; it ends normally only when neither the page nor any selected row of the tenant that the limit left room for was for it; the count is that of its published offers, those of a failing last batch left out |
| BusNames.NestedPrefix | cmdworkflow/bus.go:714-716 | a compensation's step prefix extends its parent's by subscriber and event id |
| BusNames.NamesDiffer | cmdworkflow/bus.go:423-455 | different journaled steps, at any depth, never have the same name |
| BusSteps.ReadBackIsWindow | cmdworkflow/bus.go:460-485 | reading back and cutting gives exactly the committed version range, whatever was appended since |
| BusSteps.AppendOk | cmdworkflow/bus.go:438-455 | the append step keeps the invariant of journal, store and history |
| BusSteps.SubscriberOk | cmdworkflow/bus.go:595-612 | the subscriber step keeps it and journals one outcome |
| BusSteps.DeadLetterOk | cmdworkflow/bus.go:668-698 | the dead-letter step keeps it and writes one row |
| BusLaws.StepKeepsSysOk | cmdworkflow/bus.go:263-416 | every move, restart, crash inside a subscriber step and outside commit keeps the invariant of the dispatch |
| BusProgress.FailsIffBlocked | cmdworkflow/bus.go:263-416 | a move of a reachable dispatch fails exactly when the command is refused, the stream does not load, the state or an event does not encode or decode, the dead-letter queue is not wired or its insert fails, or there is no compensating command |
| BusProgress.DispatchReturns | cmdworkflow/bus.go:263-416 | whatever other writers commit between the moves, a dispatch with bounded nesting that nothing blocks returns nil after finitely many moves |
| BusProgress.NoQueueNoRows | cmdworkflow/bus.go:668-698 | without a wired queue no dead letter is ever written |
| BusProgress.ExhaustedAreAnswered | cmdworkflow/bus.go:668-717 | of every call that returned nil, a subscriber that ran out of attempts with a non-empty error has exactly one dead letter in a wired queue, or its compensation was completed, as its policy says |
| BusTheorems.StepNamesDistinct | cmdworkflow/bus.go:423-455 | one incarnation never issues the same step name twice, through compensation nested to any depth |
| BusTheorems.ReplayCommitsOnce | cmdworkflow/bus.go:438-455 | over any number of restarts no append step commits twice and no dead letter is written twice |
| BusTheorems.ReplayGivesSameInputs | cmdworkflow/bus.go:496-512 | a subscriber step that is run again gets the same envelopes, state and events |
| BusTheorems.CommandsAreAsked | cmdworkflow/bus.go:699-717 | a call in progress at any depth runs the dispatched command or what Compensate gives for the journaled batch of a subscriber that journaled a non-empty error |
| BusTheorems.DeadLettersTell | cmdworkflow/bus.go:668-698 | every dead letter lists the ids and types of its filtered batch in order, the non-empty error its step ended with, and the budget |
| BusTheorems.CallsAreSound | cmdworkflow/bus.go:297-360 | every subscriber call had the filtered, index-aligned part of exactly the committed version range, and the one state of its dispatch, a fold at a version that includes the batch |
| BusTheorems.MatchingIff | cmdworkflow/bus.go:321-347 | the subscribers of a fan-out are exactly the Sync ones whose filter takes an envelope of the batch |
| BusTheorems.KeptIsFilter | cmdworkflow/bus.go:333-347 | filtering takes the batch envelope by envelope, in order |
| BusTheorems.ReturnIsSettled | cmdworkflow/bus.go:263-416 | when HandleCmd returns nil every Sync subscriber with an envelope in the batch that its filter takes succeeded within its budget or had its policy completed, short of an empty error text; likewise every completed compensation |
| BusTheorems.EmptyErrorIsLost | cmdworkflow/bus.go:374-386 | whatever its policy, a subscriber is settled exactly when it did not run out of attempts with an empty error text or its policy is to drop |
| BusExample.EmptyErrorIsReached | cmdworkflow/bus.go:374-386 | a run that returns nil with an exhausted subscriber, an empty error text, no dead letter and no compensation, for either policy |
| BusExample.DeadLetterIsWritten | cmdworkflow/bus.go:668-698 | a run with an exhausted subscriber and a non-empty error: with a wired queue it returns nil with exactly that letter, without one it fails with none |
| BusMethods.Registry.Register | cmdworkflow/bus.go:119-146 | accepted exactly when named, handled, able to compensate if that is its policy, not Async with Compensate, and not a duplicate |
| BusMethods.RunRetries | cmdworkflow/bus.go:619-650 | the loop stops at the first success or after the budget, and returns the last error |
| BusMethods.FilterBatch | cmdworkflow/bus.go:333-347 | envelopes and events are filtered together |
| BusMethods.DecodeEvents | cmdworkflow/bus.go:516-526 | the decoded events are index-aligned with the envelopes, or one does not decode |
| Shred.FieldRoundTrip | shred/shred.go:306-352 | opening a sealed field under its key returns the plaintext |
| Shred.OpensIff | shred/shred.go:325-352 | a field opens exactly when it is the version byte, a nonce and a tagged ciphertext that the cipher opens under a key of an accepted size |
| Shred.WrapUnwrap | adapters/kms/inproc/inproc.go:75-122 | a wrapped key unwraps under the version returned with it, and wrapping disturbs no older version |
| ShredLaws.EnsureKeyGood | shred/shred.go:87-123 | a key is found or made exactly when the subject was not forgotten, and it is the stored one |
| ShredLaws.DecryptGood | shred/shred.go:147-170 | decrypting opens under the stored key, or reports a missing or forgotten subject |
| ShredLaws.RewrapGood | shred/shred.go:220-232 | rewrapping one row moves it to the current version and keeps its key and every other row |
| ShredLaws.RotateThenRewrap | shred/shred.go:198-238 | a rotation and a rewrap put the unchanged data key under the new version, which alone unwraps it |
| ShredLaws.RunGood | shred/shred.go:87-184 | in every reachable state live rows unwrap to a full-size key, cached keys equal the stored ones, and keys of subjects not forgotten stay the same |
| ShredLaws.EncryptedStaysReadable | shred/shred.go:131-170 | a field encrypted in any reachable state decrypts to its plaintext after any further run that does not forget its subject |
| ShredLaws.ForgottenForever | shred/shred.go:174-180 | after forgetting a subject with a key, the key is nowhere, wrapped or cached, and every encrypt and decrypt for it fails, after any further run |
| ShredLaws.RowsAreDated | adapters/storage/sqlite/queries/shred.sql:9-21 | over every run a key row keeps the time of the call that made it, is never dropped, and is shredded only by a forget of its subject |
| ShredLaws.ForgetIsFinalIffKnown | shred/shred.go:174-180 | the next encrypt after forgetting fails exactly when there was a key row |
| ShredLaws.BarFreeTenantsApart | shred/cache.go:19-21 | tenants without a bar never share a cache key |
| ShredLaws.SharedCacheKeyLosesData | shred/cache.go:19-41 | two pairs with one cache key: the second one's field is lost when the cache is cleared |
| ShredLaws.SharedCacheKeyExample | shred/cache.go:19-21 | two different pairs with one cache key |
| ShredLaws.SharedCacheKeyOpensOther | shred/cache.go:19-34 | two pairs with one cache key: the second, which has no key row, opens the first one's field |
| ShredLaws.SharedCacheKeyRevivesForgotten | shred/cache.go:19-41 | two pairs with one cache key: after the first is forgotten and the second used, encrypts for the first succeed |
| ShredLaws.ReadableIffKeysApart | shred/shred.go:131-170 | fields stay readable over every run that does not forget their subject exactly when no two pairs in use share a cache key |
| ShredLaws.ForgettingIffKeysApart | shred/shred.go:174-180 | forgetting a subject with a key is final over every run exactly when no two pairs in use share a cache key |
| ShredLaws.IsolationIffKeysApart | shred/shred.go:147-170 | after every run each pair opens fields under its own stored key only, exactly when no two pairs in use share a cache key |
| ShredMethods.Shredder.EnsureSubjectKey | shred/shred.go:87-123 | the method is EnsureKey on cache, rows and keys |
| ShredMethods.Shredder.EncryptField | shred/shred.go:131-137 | the method is Encrypt |
| ShredMethods.Shredder.DecryptField | shred/shred.go:147-170 | the method is Decrypt |
| ShredMethods.Shredder.ForgetSubject | shred/shred.go:174-180 | the method is Forget |
| ShredMethods.Shredder.RotateKEK | adapters/kms/inproc/inproc.go:52-61 | the new version is the next number and the latest; every older version of every tenant is kept, so whatever unwrapped before unwraps to the same data key |
| ShredMethods.Shredder.SetKEK | adapters/kms/inproc/inproc.go:37-45 | accepted exactly for a full-size key; it is then the latest version, every older version of every tenant is kept, and whatever unwrapped before unwraps to the same data key; a refusal changes nothing |
| ShredMethods.Shredder.WrapDEK | adapters/kms/inproc/inproc.go:75-122 | wraps under the latest version, made on first use |
| ShredMethods.Shredder.RewrapDEKs | shred/shred.go:198-238 | stops for every page size, counts the rows that were stale at the start, leaves none, keeps every data key and every other tenant's rows |
| ShredMethods.Shredder.SweepTenant | shred/retention.go:206-246 | shreds exactly the live rows of the tenant older than the cutoff, for every page size, and counts them |
| ShredMethods.Shredder.SweepTenants | shred/retention.go:131-166 | a sweep shreds exactly the expired live rows of the listed tenants |
| Projection.ReadAllLists | adapters/storage/sqlite/read.go:52-76 | a page lists the events in scope after the cursor without gaps |
| Projection.ReachedIsCovered | projection/runtime.go:139-222 | over every run of one runner with growth, failures, crashes and resets, every wanted event up to the saved cursor was handled, or captured in dead-letter mode only, and always after all wanted events before it |
| Projection.RunOnceKeepsInv | projection/runtime.go:139-222 | one RunOnce keeps that and never lowers the cursor |
| Projection.Runtime.RunOnce | projection/runtime.go:139-222 | the loop is Batch: cursor, history, successes and error |
| ProjectionProgress.ReadAllSize | adapters/storage/sqlite/read.go:52-76 | a page is as long as the limit and the number of events in scope after the cursor allow |
| ProjectionProgress.BatchGetsTo | projection/runtime.go:183-212 | a batch passes other shards' events and its own as long as they are handled or captured, up to the first that is not; cursor, history, successes and error are those of that point |
| ProjectionProgress.RunOnceGetsTo | projection/runtime.go:139-222 | from every reachable state the cursor is saved at the last event passed, even before a failure, and stays put if none was passed, the process died or the save failed |
| ProjectionProgress.CatchesUp | projection/runtime.go:139-222 | from every reachable state as many undisturbed runs as events are awaited leave every wanted event of the log handled or captured |
| ProjectionProgress.EveryLogIsHandled | projection/runtime.go:139-222 | from nothing, on a log of any length, that many undisturbed runs handle or capture every wanted event |
| ProjectionRunners.RunnersStayCovered | projection/runtime.go:139-222 | the same coverage and order over every interleaving of the loads, reads, handler calls and saves of any number of runners |
| ProjectionRunners.AloneIsRunOnce | projection/runtime.go:139-222 | a runner that is left alone makes one RunOnce of its steps |
| ProjectionRunners.FallsOnlyIfOvertaken | adapters/storage/sqlite/queries/projection_checkpoint.sql:10-15 | a save lowers the checkpoint only if it was raised after this runner loaded it |
| ProjectionRunners.CheckpointFalls | adapters/storage/sqlite/queries/projection_checkpoint.sql:10-15 | two runners and two events with which the checkpoint falls from 2 to 1 |
| ProjectionShards.CleanRun | projection/runtime.go:139-222 | without failures or resets the history is exactly the wanted events up to the cursor, each once, in order |
| ProjectionShards.ShardsEqualOne | projection/runtime.go:267-276 | with stream-local handlers that never fail, each stream's shard runner ends with what one unsharded runner has, and other shards have nothing for it |
| Linked.BuildFilter | linked/projection.go:128-132 | the filter loop collects exactly the configured types |
| Linked.Handler | linked/projection.go:141-208 | the handler on the destination store is Emit |
| Linked.EmitAnswers | linked/projection.go:141-208 | nil without a change for filtered, skipped and already claimed sources, an error without a change when the route gives nothing to append, else nil exactly when the derived row can be added, and then it is |
| Linked.RedeliveryIsNil | linked/projection.go:196-206 | a source that is derived already is answered with nil and no change, whatever the call draws |
| Linked.LinkedAtMostOnce | linked/projection.go:141-208 | over every sequence of handler calls by any runners, repeated at will, no source event has two derived events, and each derived event is a real row with the route's stream, type, payload and defaults and the source's cause, time and correlation |
| Linked.LinkedSettledHasOne | linked/projection.go:196-206 | a source whose call returned nil has a derived event when others stay out of the scope |
| LinkedHost.WalkSettles | projection/runtime.go:187-220 | every success the projector records in a batch of linked handler calls is settled at the destination |
| LinkedHost.ReachedJointInv | linked/projection.go:141-208 | over every joint run what the projector handled is settled at the destination |
| LinkedHost.HostedExactlyOne | linked/projection.go:141-208 | over every joint run of a fail-stop projector and the destination, with crashes around handler calls, lost checkpoints, resets, other runners and other appends, every wanted emitting event up to the saved cursor has exactly one derived event |
| Mirror.PublishedLaws | examples/statestream/index.go:53-98 | a delivery fails exactly when the mirrored state does not decode; it keeps the customer index exact, never lowers a version, and a row it writes shows the invoice field by field |
| Mirror.Index.PublishState | examples/statestream/index.go:53-98 | the in-place update computes Published; what rows it leaves over every run is Mirror.ReachedRowsShown |
| Mirror.Index.RemoveFromCustomer | examples/statestream/index.go:100-107 | the stream leaves the customer's entry, and an empty entry is dropped |
| Mirror.Index.FindByCustomer | examples/statestream/index.go:121-132 | exactly the rows of that customer, each stream once |
| Mirror.ReachedIsSafe | state_stream/drain.go:140-180 | over every run of any number of drains of any tenants, positions never exceed the versions the receiver has under their stream ids, and the index is exact |
| Mirror.ReachedRowsShown | examples/statestream/index.go:53-98 | over every run each row of the receiver shows, field by field, an invoice that was delivered under its stream at its version |
| Mirror.ReceiverMovesForward | examples/statestream/index.go:69-74 | the receiver's versions never go down, nor do recorded positions that are not reset |
| MirrorTenants.ReachedOwns | examples/statestream/index.go:53-98 | with no stream id mirrored under two tenants, every recorded position of a mirrored stream is backed by that tenant's own row, over every run |
| MirrorTenants.SharedIdLosesRow | examples/statestream/index.go:69-74 | one stream id under two tenants: a position is recorded for a row that the receiver does not have |
| MirrorTenants.OwnRowsIffStreamsApart | examples/statestream/index.go:69-74 | positions stand for the tenant's own row over every run exactly when no stream id is mirrored under two tenants |
| Mirror.CleanBatch | state_stream/drain.go:140-180 | a batch without failures delivers every stream of its shard on the page |
| Mirror.DeliversAlone | state_stream/drain.go:155-178 | a delivery and its record, one after the other, are one step of the batch loop: receiver, position and rest of the page |
| Mirror.StateDrain.RunBatch | state_stream/drain.go:140-180 | the batch loop is Batch on one page of streams behind |
| Mirror.StateDrain.Run | state_stream/drain.go:79-113 | without failures Run stops; unsharded, every mirrored stream is then in the receiver at its cached version or later |
| Mirror.DownPublisherRepeats | state_stream/drain.go:95-112 | while the publisher is down a batch changes nothing and its failure count is positive exactly when the page has a stream of the shard |
| Mirror.BatchCounts | state_stream/drain.go:140-180 | a batch counts each stream of its shard once, as delivered exactly when the delivery and its position came through |
| MirrorRuns.FateBatchIsBatch | state_stream/drain.go:140-180 | a batch in which each stream has its fate is the batch of RunBatch under the matching script |
| MirrorRuns.BatchEffect | state_stream/drain.go:155-178 | a batch counts each stream of its shard once and takes off the list exactly those whose delivery moves the position |
| MirrorRuns.UnshardedStopsIff | state_stream/drain.go:79-113 | unsharded, on a quiet cache with fates that stay, a Run over any pages stops exactly when no stream behind is stuck, and then with nothing behind |
| MirrorRuns.EveryRunStopsIff | state_stream/drain.go:79-113 | sharded or not, every Run stops exactly when no stream of the shard that is behind is stuck |
| MirrorRuns.NoRunStopsIff | state_stream/drain.go:79-113 | no Run stops exactly when a stream of the shard is stuck and fewer than a page of other shards' streams are behind |
| MirrorRuns.OrderedRunStopsIff | adapters/storage/sqlite/queries/state_stream.sql:3-24 | with pages in a strict update order, a Run stops exactly when before every stuck stream there is a full page of older streams of other shards |
| MirrorOrder.OrderedRunExists | adapters/storage/sqlite/queries/state_stream.sql:22-24 | for every strict order of the streams there is a Run with its pages in that order |
| MirrorOrder.EveryTimedRunStopsIff | adapters/storage/sqlite/queries/state_stream.sql:22-24 | with ties in the update time broken in any way, every Run stops exactly when before every stuck stream there is a full page of strictly older streams of other shards |
| MirrorOrder.NoTimedRunStopsIff | adapters/storage/sqlite/queries/state_stream.sql:22-24 | with ties broken in any way, no Run stops exactly when some stuck stream has fewer than a page of streams of other shards that are not newer |
| MirrorRuns.UndecodableRowGoesOn | examples/statestream/index.go:62-65 | one mirrored row that does not decode: no unsharded Run stops, with nothing down |
| MirrorRuns.DownPublisherGoesOn | state_stream/drain.go:95-112 | with a publisher that stays down an unsharded Run stops exactly when nothing is behind |

## Left out

- The SQL text, migrations, connection pools, row-level security and advisory locks: one runner per shard and atomic
  transactions stand for them. The Postgres adapter is not modelled separately.
- Real cryptography, random generators, protobuf, JSON and gob encoders: functions with the laws stated above.
- Restate, DBOS, AWS KMS, Cedar and Connect adapters, the code generators and the command-line tools.
- Encryption of personal fields inside Load and Handle: the runtime is modelled without a Shredder.
- Context cancellation and deadlines: they appear as early stops, failures and crashes.
- Async subscribers of the bus: they are skipped in the fan-out; spawning and DispatchAsync are not modelled.
- A subscriber's Compensate and filter are deterministic functions; the journal of a Restate or DBOS runtime is a map.
- Outbox cleanup retention and the admin counters.
- Integer widths other than the 64-bit delay and the 32-bit attempts cap: versions, positions and key versions are
  unbounded.
- ShredMethods.Shredder.RewrapDEKs: the rows of a page come in some order, not in subject order, and no row fails to
  unwrap in a reachable state.
- ShredMethods.Shredder.SweepTenants: scanner errors and the OnShredded callback are not modelled.
- Mirror.StateDrain.Run: the drain serves one tenant, the page comes in some order, not by update time, and every
  delivery succeeds; which Runs stop otherwise, also with pages in update order, is in MirrorRuns and MirrorOrder.
- MirrorRuns.EveryRunStopsIff: the cache is quiet and each stream's deliveries always go the same way; a delivery that
  fails at times only is not a fate.
- Strings are sequences of characters; bytes that are not valid UTF-8 do not occur.
- Linked.LinkedSettledHasOne: the destination's unique event ids are drawn from outside; a clash is an append error.
- The invoice, employee, order and conversation deciders, queue hints, access tables and subject data export: easy
  members beside Party and the runtimes.
- Races inside one Shredder method and key caches of several processes: each method is one step.
