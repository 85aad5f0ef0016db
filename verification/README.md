# StromDB partition protocol in Dafny

StromDB keeps one partition's state in an object store that offers only create-if-absent, read, list-newest and delete.
This project models the protocol that makes one process at a time the writer of such a partition: claims by Seal
generation, a write-ahead log of RUN and FENCE objects, checkpoints, log collection, crashes, and requests that land
long after their sender has given up. It proves what every run of any number of processes guarantees.

The model has four layers.

- **Values.** `Common`, `Domain`, `Forests`, `Logs`, `Seals`, `Suffix`, `Rows`, `Merge`, `Checkpoints`, `SealLegality`
  and `Spelling` hold the forest and its strict fold, replay of a log, Seals, their tables and the checks made on them,
  the bounded suffix, and key spelling.
- **Machines as functions.** `WriterSpec` and `BootstrapSpec` give each machine's `handle` as a function from state and
  event to state and outputs. `WriterInvariant`, `Nodes` and `NodeTheorems` prove what every step and every run of a
  writer under its interpreter keeps.
- **Machines in place.** `WriterMachines`, `Interpreters`, `BootstrapMachines`, `ForestChecks` and `TypedStores` are the
  same machines as classes and loops that update their fields, each proved to refine its function. The assertions and
  expectations of the source are assertions there.
- **The shared world.** `Stores` is the object store with its history: `log` lists the first occupant of every WAL
  coordinate, collected or not, and `authors` says whose request created each Seal. `Worlds` adds processes, requests
  on their way and collectors, and one step function. `WorldInvariant` states the invariant; `WorldAppend`, `WorldSeal`,
  `WorldBystander`, `WorldLanding`, `WorldBoot`, `WorldWriter`, `WorldTurn` and `WorldRuns` show that each step keeps
  it; `WorldTheorems`, `WorldAttempts` and `WorldProgress` state what follows for every run; `WorldLimits` and
  `WorldRefill` build the runs in which two promises end.

How the world is read:

- A create request, once sent, may land at any later moment or never, also after its sender has died. A delete is
  unconditional and may land late. A collector may stop after any coordinate.
- A store answer is true of the store when the bootstrap takes it up. An answer delivered later than it was formed adds
  no behaviour, because the next request may land at any later moment anyway, and what a recovery says of the log stays
  true (`WorldTheorems.RecoveryStaysExact`). A writer may hear of a durable RUN or an authored
  Seal at any time after the fact, and may always hear of a failure instead.
- An honest store never reports a contradiction, except that a table read may, because a table may have been collected.
- A table reference carries the rows the immutable table decodes to. What checkpoint preparation hands back is described
  by `Checkpoints.PreparesTables`: the delta as one fresh sorted run on top of the source's runs, or every row afresh,
  cut into nonempty tables under identities minted for the attempt, inside the run and bootstrap bounds.
- The forest's map roots are represented by a number minted per admitted forest, so sharing of roots is equality of
  numbers.

Where comments and code differ in reach: the comments at crates/strom-storage-engine/src/store/wal.rs:83-94 say that no
legal writer re-occupies a collected coordinate. The code lets the FENCE create of a superseded bootstrap land late in
the hole of a collected RUN. `WorldRefill.LateFenceSettles` is such a run, and `WorldRefill.OwnerAnomalyHappens` lets a
superseded bootstrap trip over it. A collected coordinate is occupied again exactly when such a create for it is on its
way and lands (`WorldTheorems.HoleCanRefillExactly`, `WorldTheorems.HoleRefillsInRuns`). It does no harm: nothing but
such a FENCE can settle there, no delete is on its way to it any more, it shuts out older owners like any other FENCE,
and a replay whose claim is newest never meets it.

Where a promise ends: a takeover of the newest claim can complete if and only if the suffix has room behind the log
(`WorldTheorems.TakeoverIsBounded`, `WorldProgress.TakeoverCanComplete`). Crashes alone can use that room up, one FENCE
a takeover, and then no process ever becomes the writer again (`WorldLimits`).

## Model

| member | source | states |
|---|---|---|
| `Forests.FoldKeepsComplete` | crates/strom-storage-protocol/src/forest.rs:96-173 | A successful strict fold keeps the cross-store invariant, and on a complete forest no live row lacks the record whose absence is a panic. |
| `Forests.FoldAcceptsExactly` | crates/strom-storage-protocol/src/forest.rs:96-173 | A fact joins a complete forest if and only if its path is in the state it presumes, and each contradiction is reported exactly for its cause. |
| `Forests.FoldChangesOnly` | crates/strom-storage-protocol/src/forest.rs:96-173 | A fold changes the fact's own row and record and nothing else; the batch of creation is written once and survives closing. |
| `Forests.FoldKeepsPaths` | crates/strom-storage-protocol/src/forest.rs:96-173 | No fold frees an occupied path or gives it another uid. |
| `Forests.FoldFactsKeepComplete` | crates/strom-storage-protocol/src/bootstrap.rs:953-966 | Folding any facts of one batch keeps the invariant. |
| `Forests.EveryUidIsTaken` | crates/strom-storage-protocol/src/forest.rs:302-321 | Pigeonhole: n distinct uids in 1..n leave no slot vacant. |
| `ForestChecks.MutableForest.Apply` | crates/strom-storage-protocol/src/forest.rs:96-173 | The in-place fold has exactly the effect of the specified fold, a rejected fold changes nothing, and its assertions hold. |
| `ForestChecks.MutableForest.ApplyAll` | crates/strom-storage-protocol/src/bootstrap.rs:953-966 | The replay loop folds all facts or reports that one contradicts, exactly as the specified fold of the batch. |
| `ForestChecks.FillSlots` | crates/strom-storage-protocol/src/forest.rs:302-318 | The slot array ends holding each row's state, or the error names a uid out of range or taken twice. |
| `ForestChecks.MarkRecords` | crates/strom-storage-protocol/src/forest.rs:323-340 | Each record marks its live row's slot, or the error names a record beyond the uids or on a tombstone. |
| `ForestChecks.TryForest` | crates/strom-storage-protocol/src/forest.rs:281-346 | The validating constructor accepts rows if and only if they form a complete forest; every error names a defect that is there; the vacancy check never fires. |
| `ForestChecks.DirectoryInOrder` | crates/strom-storage-protocol/src/forest.rs:305-318 | The loop lists a map in ascending key order, each entry once. |
| `Rows.DeltaRoundTrip` | crates/strom-storage-protocol/src/forest.rs:184-217 | Overlaying a delta on its base rebuilds the later forest when occupancy only grew. |
| `Rows.CellsRoundTrip` | crates/strom-storage-protocol/src/forest.rs:219-235 | The full cells of a forest rebuild it from nothing. |
| `Checkpoints.DeltaRebuilds` | crates/strom-storage-protocol/src/forest.rs:184-235 | For any forest reached from a base by folding any RUNs, full cells and then the delta rebuild exactly that forest, and it is complete. |
| `Suffix.RoomOutlivesAdvance` | crates/strom-storage-protocol/src/suffix.rs:26-60 | Room reserved behind a RUN outlives every advance of the cut up to it, and is exactly room for the takeover FENCE right after it. |
| `Suffix.RunRoomExactly` | crates/strom-storage-protocol/src/suffix.rs:26-33 | A RUN leaves room if and only if it is after the cut, its successor is at most 1024 beyond the cut, and it has a successor. |
| `Suffix.FenceBoundExactly` | crates/strom-storage-protocol/src/suffix.rs:35-60 | A FENCE passes the bound if and only if it is after the cut, at most 1024 beyond it, and not the last coordinate. |
| `Logs.SuffixCompletesPrefix` | crates/strom-storage-protocol/src/bootstrap.rs:646-739 | The state at any cut folded with the objects after it is the fold of the whole log. |
| `Logs.FenceBetween` | crates/strom-storage-protocol/src/bootstrap.rs:679-706 | Between two owners of a log stands a FENCE that raised one to the other. |
| `Merge.AddResidentBytes` | crates/strom-storage-protocol/src/bootstrap.rs:968-974 | The account is refused if and only if the sum exceeds the resident bound; the u64 overflow check never decides. |
| `Merge.LoadWrites` | crates/strom-storage-protocol/src/bootstrap.rs:432-475 | A successful load has written exactly its tables' rows in order, and the account is 525 bytes a Directory row plus 1035 a Ledger row. |
| `Merge.DirectoryRowsMerge` | crates/strom-storage-protocol/src/bootstrap.rs:835-857 | Merging Directory rows one by one is overlaying their map, with the account exact after every row. |
| `Merge.LedgerRowsMerge` | crates/strom-storage-protocol/src/bootstrap.rs:859-895 | Merging Ledger cells one by one is overlaying them, a Delete removing the record, with the account exact after every row. |
| `Merge.NewestWins` | crates/strom-storage-protocol/src/bootstrap.rs:822-833 | In the oldest-first plan every key ends with the cell of the first run in manifest order that holds it. |
| `Checkpoints.LoadMeansSorted` | crates/strom-storage-protocol/src/bootstrap.rs:835-895 | A load that succeeds has found the rows of every run strictly ascending, across its tables too. |
| `Checkpoints.MergeIsNewestWins` | crates/strom-storage-protocol/src/bootstrap.rs:822-895 | A load that succeeds gives every path and uid its newest cell, a Delete cell meaning absent. |
| `Checkpoints.TreeFits` | crates/strom-storage-protocol/src/bootstrap.rs:432-475 | Sorted runs over keys that fit the resident bound always load. |
| `Checkpoints.HoldsLoads` | crates/strom-storage-protocol/src/bootstrap.rs:406-475 | A Seal whose tables hold a forest loads to exactly that forest. |
| `Checkpoints.PreparationHolds` | crates/strom-storage-engine/src/checkpoint/prepare.rs:35-113 | A prepared successor Seal holds exactly the snapshot it was prepared from, whether it appended a delta or wrote everything. |
| `Checkpoints.PreparationExists` | crates/strom-storage-engine/src/checkpoint/prepare.rs:93-113 | Every snapshot can be prepared by writing it afresh, one table a store under freshly minted identities, whatever the source. |
| `Checkpoints.DeltaPreparationExists` | crates/strom-storage-engine/src/checkpoint/prepare.rs:35-193 | Every snapshot has a delta that can be appended to any source under freshly minted identities, and appending it is a preparation whenever the longer manifest fits the run and bootstrap bounds. |
| `SealLegality.PreparationIsLegal` | crates/strom-storage-engine/src/checkpoint/prepare.rs:309-368 | A preparation of a Seal that passes every construction check passes them too: fresh tables are in their own store, born with the successor and distinct, carried ones are older, and runs and trees stay in bounds, so none of the expectations on identities, runs, trees and the Seal fails. |
| `WriterInvariant.RecoveryEstablishesInv` | crates/strom-storage-protocol/src/writer.rs:561-611 | A recovered machine satisfies the writer invariant. |
| `WriterInvariant.AdmissionReports` | crates/strom-storage-protocol/src/writer.rs:1262-1378 | An admitted fact folds into the admitted forest and both kinds of success report a state of it. |
| `WriterInvariant.AdmissionIsExact` | crates/strom-storage-protocol/src/writer.rs:1262-1378 | On a complete forest every command is admitted, answered or refused for exactly one reason, and each reason holds if and only if it is true of the forest. |
| `WriterInvariant.PromisesBecomeKept` | crates/strom-storage-protocol/src/writer.rs:992-1037 | Every reply queued on a barrier reports a state passed through while its RUN is folded at the batch it is written to. |
| `WriterInvariant.InstallKeepsRoomy` | crates/strom-storage-protocol/src/writer.rs:1134-1141 | Installing a checkpoint keeps the takeover room of everything queued or flying. |
| `WriterInvariant.HandleKeepsInv` | crates/strom-storage-protocol/src/writer.rs:630-657 | Every step keeps the writer invariant: admitted is the fold of the queued facts at the next batch over the flight's forest or the durable one, the flight's forest is the fold of its facts at its batch over the durable one, bounds, room and markers. |
| `Nodes.DeliverableIsFaithful` | crates/strom-storage-engine/src/writer.rs:76-98 | Every event the interpreter can pick up is one the machine accepts. |
| `Nodes.NeverIdle` | crates/strom-storage-engine/src/writer.rs:76-93 | A live writer admits commands unless a flight or a checkpoint is under way with its effect outstanding, a collection alone never closes admission, and a barrier without a flight has its timer armed. |
| `Nodes.TurnKeepsInv` | crates/strom-storage-engine/src/writer.rs:101-193 | Every turn meets the interpreter's assertions (fresh effect keys, one timer, cancellation of a present preparation) and leaves tables and machine in agreement. |
| `NodeTheorems.StepShape` | crates/strom-storage-protocol/src/writer.rs:644-655 | A step has at most four outputs and only actions when it stops the writer. |
| `NodeTheorems.OverloadStartsCheckpoint` | crates/strom-storage-protocol/src/writer.rs:1143-1152 | Refusing a command as overloaded leaves a checkpoint in progress unless the coordinates are ending. |
| `NodeTheorems.HandleConserves` | crates/strom-storage-protocol/src/writer.rs:659-751 | In one step the callers taken in and held are, as a multiset, those answered, those still held and those dropped with a failed flight. |
| `NodeTheorems.ShutdownHoldsNothing` | crates/strom-storage-protocol/src/writer.rs:899-912 | A step that ends in Shutdown leaves no caller waiting. |
| `NodeTheorems.HandleBacked` | crates/strom-storage-protocol/src/writer.rs:1039-1069 | Every success a step sends reports the durable state or a state inside the RUN that has just become durable. |
| `NodeTheorems.EveryRunIsSafe` | crates/strom-storage-engine/src/writer.rs:68-129 | In every run the machine satisfies its invariant before each step and between the two halves of it, accepts every event that can be delivered, meets the output assertions on ordinary and terminal steps, and admits commands unless a flight or a checkpoint is under way. |
| `NodeTheorems.EveryRunConserves` | crates/strom-storage-protocol/src/writer.rs:879-1081 | Over every run, however it ends, the commands received are the replies sent plus the callers waiting plus the callers of the one flight whose WAL effect failed; a run that goes on has lost none and a Shutdown has answered each exactly once. |
| `NodeTheorems.AttemptsAreTurns` | crates/strom-storage-protocol/src/writer.rs:1116-1122 | The checkpoint attempt counter never exceeds the number of turns taken. |
| `WriterMachines.WriterMachine.constructor` | crates/strom-storage-protocol/src/writer.rs:561-611 | From a recovery and a flush budget that pass the four assertions, the machine is the specified initial state and satisfies the invariant. |
| `WriterMachines.WriterMachine.AcceptFact` | crates/strom-storage-protocol/src/writer.rs:1143-1159 | Queues a fact or refuses for want of room; the byte bound asserted on the barrier holds. |
| `WriterMachines.WriterMachine.Admit` | crates/strom-storage-protocol/src/writer.rs:915-990 | Refines specified admission; an all-idempotent barrier is never found waiting. |
| `WriterMachines.WriterMachine.Split` | crates/strom-storage-protocol/src/writer.rs:1002-1009 | The loop separates the barrier's facts and its replies in order. |
| `WriterMachines.WriterMachine.DrainPending` | crates/strom-storage-protocol/src/writer.rs:992-1037 | Refines the specified drain; its assertions hold. |
| `WriterMachines.WriterMachine.RecordWalDurable` | crates/strom-storage-protocol/src/writer.rs:1039-1069 | Promotes the flight, publishes the view and then replies; admitted equals durable at quiescence. |
| `WriterMachines.WriterMachine.EstablishedWal` | crates/strom-storage-protocol/src/writer.rs:702-730 | Each WAL outcome promotes the flight or drops it with the right exit. |
| `WriterMachines.WriterMachine.CompletePreparation` | crates/strom-storage-protocol/src/writer.rs:759-808 | Refines the specified completion of a preparation. |
| `WriterMachines.WriterMachine.CompletePublication` | crates/strom-storage-protocol/src/writer.rs:816-873 | Refines the specified completion of a publication; the installed source is the machine's own Seal. |
| `WriterMachines.WriterMachine.TakeCheckpoint` | crates/strom-storage-protocol/src/writer.rs:1087-1132 | Plans a checkpoint exactly when one is due, at an advancing cut. |
| `WriterMachines.WriterMachine.Flush` | crates/strom-storage-protocol/src/writer.rs:884-902 | Drains or arms the timer exactly as specified. |
| `WriterMachines.WriterMachine.Schedule` | crates/strom-storage-protocol/src/writer.rs:879-913 | Refines the specified schedule; at shutdown admitted and durable share roots. |
| `WriterMachines.WriterMachine.ApplyEvent` | crates/strom-storage-protocol/src/writer.rs:659-751 | Refines the specified effect of every event. |
| `WriterMachines.WriterMachine.Handle` | crates/strom-storage-protocol/src/writer.rs:630-657 | Refines the specified step, keeps the invariant and meets both output assertions. |
| `Interpreters.Writer.constructor` | crates/strom-storage-engine/src/writer.rs:45-66 | A new interpreter is the specified spawned node. |
| `Interpreters.Writer.SpawnEffect` | crates/strom-storage-engine/src/writer.rs:124-170 | Records an effect under a key that was absent. |
| `Interpreters.Writer.ExecuteAction` | crates/strom-storage-engine/src/writer.rs:172-193 | Arms the only timer, publishes, replies or aborts a present preparation. |
| `Interpreters.Writer.SendReplies` | crates/strom-storage-engine/src/writer.rs:223-237 | Sends every reply in order. |
| `Interpreters.Writer.ExecuteStep` | crates/strom-storage-engine/src/writer.rs:101-122 | Executes the outputs of a step in order. |
| `Interpreters.Writer.TakeTurn` | crates/strom-storage-engine/src/writer.rs:76-98 | One turn of the loop refines the specified turn and keeps machine and tables in agreement. |
| `Interpreters.Writer.Run` | crates/strom-storage-engine/src/writer.rs:68-99 | The loop over any script of events is the specified run, stopping only at an exit or an event it could not pick up. |
| `BootstrapSpec.HandleKeepsWhole` | crates/strom-storage-protocol/src/bootstrap.rs:189-217 | Every transition keeps the merged account exact and the forest being replayed complete. |
| `BootstrapMachines.RowMerger.MergeDirectory` | crates/strom-storage-protocol/src/bootstrap.rs:835-857 | The in-place loop merges exactly the specified rows or reports the bound. |
| `BootstrapMachines.RowMerger.MergeLedger` | crates/strom-storage-protocol/src/bootstrap.rs:859-895 | The in-place loop merges exactly the specified cells; a removed record's bytes are always in the account. |
| `BootstrapMachines.PlanTree` | crates/strom-storage-protocol/src/bootstrap.rs:822-833 | The reverse loop lists the tables oldest run first. |
| `BootstrapMachines.PlanSources` | crates/strom-storage-protocol/src/bootstrap.rs:798-814 | The counted plan is refused exactly beyond the object or byte bound. |
| `BootstrapMachines.BootstrapMachine.OnSeal` | crates/strom-storage-protocol/src/bootstrap.rs:333-373 | Refines planning and the claim of the newest Seal. |
| `BootstrapMachines.BootstrapMachine.NextTable` | crates/strom-storage-protocol/src/bootstrap.rs:406-430 | Asks for the next table, or accepts the merged rows if and only if the slot check finds them a complete forest. |
| `BootstrapMachines.BootstrapMachine.OnTable` | crates/strom-storage-protocol/src/bootstrap.rs:432-475 | Refines the merge of one table with its order check. |
| `BootstrapMachines.BootstrapMachine.ReplayObject` | crates/strom-storage-protocol/src/bootstrap.rs:679-703 | Replays one object in place or finds exactly the specified anomaly. |
| `BootstrapMachines.BootstrapMachine.OnReplayRead` | crates/strom-storage-protocol/src/bootstrap.rs:646-739 | Refines one step of replay. |
| `BootstrapMachines.BootstrapMachine.Handle` | crates/strom-storage-protocol/src/bootstrap.rs:189-217 | Refines the specified transition for every answer and keeps the state whole. |
| `TypedStores.ObjectStore.Create` | crates/strom-object-store/src/adapter.rs:57-84 | A conditional create changes at most its own absent key; Direct is given only to the request that created it. |
| `TypedStores.PublishAuthority` | crates/strom-storage-engine/src/store/seal.rs:45-59 | Authored only if this call created the Seal; an occupied generation never gives authority. |
| `TypedStores.PublishGenesis` | crates/strom-storage-engine/src/store/seal.rs:29-43 | Established and LostRace are true of the Seal that is there. |
| `TypedStores.Establish` | crates/strom-storage-engine/src/store/wal.rs:120-140 | Durable, Occupied and UnresolvedAbsent are true of the store when the answer is formed. |
| `TypedStores.CollectRuns` | crates/strom-storage-engine/src/checkpoint/collect.rs:8-41 | Whatever fails, what is gone is every RUN of a prefix of the range and nothing else; without failure the whole range is walked. |
| `TypedStores.SweepIsSelective` | crates/strom-storage-engine/src/checkpoint/collect.rs:20-41 | Collection removes no FENCE and nothing outside its range, and finishing an interrupted walk is walking it once. |
| `TypedStores.CheckTables` | crates/strom-storage-domain/src/seal.rs:113-127 | The tree check fails exactly when a table is of another store or from a later generation. |
| `TypedStores.CheckDistinct` | crates/strom-storage-domain/src/seal.rs:52-58 | The set loop finds exactly the repeated table objects. |
| `TypedStores.NewSeal` | crates/strom-storage-domain/src/seal.rs:27-60 | A Seal is constructed if and only if it is legal. |
| `Seals.ClaimIsLegal` | crates/strom-storage-domain/src/seal.rs:101-110 | The claim successor of a legal Seal is legal, and passes every construction check if its source does. |
| `Seals.ClaimSuccessor` | crates/strom-storage-domain/src/seal.rs:101-110 | The claim keeps everything but the generation, which is one later, and exists exactly below the last generation. |
| `Spelling.DecimalOrder` | crates/strom-storage-domain/src/spelling.rs:208-217 | Fixed-width decimals sort as their numbers. |
| `Spelling.KeyRoundTrip` | crates/strom-storage-domain/src/spelling.rs:54-73 | Parsing a displayed Seal or WAL key gives back every nonzero u64 coordinate. |
| `Spelling.KeyIsCanonical` | crates/strom-storage-domain/src/spelling.rs:233-259 | Only the canonical spelling of a coordinate parses. |
| `Spelling.KeyOrder` | crates/strom-storage-domain/src/spelling.rs:65-73 | Ascending string order of keys is descending numeric order. |
| `Spelling.FirstListedIsNewest` | crates/strom-storage-engine/src/store/wal.rs:157-179 | The first key of an ascending listing names the greatest coordinate present, and only that key does. |
| `Spelling.TableRoundTrip` | crates/strom-storage-domain/src/spelling.rs:193-206 | Parsing a displayed table key gives back every legal identity. |
| `Spelling.TableIsCanonical` | crates/strom-storage-domain/src/spelling.rs:149-191 | Whatever parses as a table key is the display of a legal identity. |
| `WorldSeal.RequestIsSealable` | crates/strom-storage-protocol/src/bootstrap.rs:333-404 | A genesis, claim or checkpoint request that finds its generation free is the legal next Seal, holding the log's state at its cut. |
| `WorldSeal.SealKeepsSuperseded` | crates/strom-storage-protocol/src/writer.rs:816-873 | A later Seal keeps a claim's cut or replays under a later owner. |
| `WorldSeal.SealKeepsFenceRank` | crates/strom-storage-protocol/src/writer.rs:816-873 | Every later Seal whose cut reaches a FENCE, standing or on its way, replays under that FENCE's owner or a later one. |
| `WorldAppend.AppendKeepsWalRequest` | crates/strom-storage-protocol/src/writer.rs:992-1037 | A delayed RUN stays landable only right behind its owner's last object and behind no FENCE. |
| `WorldLanding.OnlyFencesRefill` | crates/strom-storage-engine/src/store/wal.rs:207-241 | A create that finds its coordinate free inside the log is a FENCE of a later owner than the RUN collected there, though not later than the owner at the end of the log. |
| `WorldLanding.NextVisitIsFresh` | crates/strom-storage-engine/src/checkpoint/collect.rs:8-41 | No coordinate is visited by two collectors, so each RUN is deleted at most once. |
| `WorldBoot.NewerOwnerMeansNewerSeal` | crates/strom-storage-protocol/src/bootstrap.rs:548-581 | A listed tail that is not older than the claim means a Seal newer than the claim. |
| `WorldBoot.CollectedBelowFence` | crates/strom-storage-protocol/src/bootstrap.rs:490-499 | A coordinate found occupied was collected only after a later FENCE stood above it. |
| `WorldBoot.ListAdvances` | crates/strom-storage-protocol/src/bootstrap.rs:477-520 | No listing is taken for one that failed to advance past an occupied candidate. |
| `WorldBoot.ReplayReadLegal` | crates/strom-storage-protocol/src/bootstrap.rs:646-739 | Every replay anomaly, absence and owner order and fold alike, means a Seal newer than the claim. |
| `WorldBoot.CompletionReady` | crates/strom-storage-protocol/src/bootstrap.rs:255-272 | A recovery handed over while its claim is newest is a writer standing on the end of the log. |
| `WorldBoot.AnswerLegal` | crates/strom-storage-protocol/src/bootstrap.rs:189-217 | Whatever an honest store answers, no assertion fires, the next request is legal, and a contradiction is reported only for exhausted generations, a refusing store or a table. |
| `WorldTurn.TurnLegal` | crates/strom-storage-protocol/src/writer.rs:630-657 | Every turn of a live writer sends legal requests only, records every success it tells in the log, and leaves the writer legal. |
| `WorldRuns.StepKeepsWorld` | crates/strom-storage-protocol/src/bootstrap.rs:175-217 | Every step of any process, the store, a collector or a crash is free of panics and keeps the world invariant. |
| `WorldRuns.EveryRunKeepsWorld` | crates/strom-storage-protocol/src/writer.rs:553-657 | Every run from the empty store keeps it. |
| `WorldTheorems.NoPanics` | crates/strom-storage-protocol/src/writer.rs:561-657 | In every reachable world every possible answer is one the machine accepts, and a recovered writer is built with what its constructor asserts. |
| `WorldTheorems.ForestsAreComplete` | crates/strom-storage-protocol/src/forest.rs:90-173 | The forests that admission and replay rely on are complete in every reachable world. |
| `WorldTheorems.RunsGrow` | crates/strom-object-store/src/evidence.rs:9-24 | Log, authors and replies of a run are kept by every continuation of it. |
| `WorldTheorems.WalIsOneChain` | crates/strom-storage-protocol/src/bootstrap.rs:646-706 | Split-brain safety: above the newest cut the WAL is gap-free and is the log; every RUN keeps the owner and every FENCE raises it. |
| `WorldTheorems.FenceShutsOutOlderRuns` | crates/strom-storage-protocol/src/bootstrap.rs:601-644 | Once a FENCE stands, first at its coordinate or settled late in a hole, nothing of an older owner is appended in any continuation; above a FENCE that was first no RUN of an older owner is ever found. |
| `WorldTheorems.FencesAreForGood` | crates/strom-storage-engine/src/store/wal.rs:55-72 | A FENCE, one that settled late in a hole included, is never deleted or replaced. |
| `WorldTheorems.HoleRefillsExactly` | crates/strom-storage-engine/src/store/wal.rs:83-94 | A step occupies a collected coordinate again if and only if it lands a create on its way to it, and what lands is a FENCE of a later owner than the RUN that was there. |
| `WorldTheorems.HoleCanRefillExactly` | crates/strom-storage-engine/src/store/wal.rs:83-94 | A collected coordinate can be occupied again next if and only if a FENCE create for it is on its way. |
| `WorldTheorems.HoleRefillsInRuns` | crates/strom-storage-engine/src/store/wal.rs:83-94 | Over any continuation a collected coordinate ends up occupied if and only if some create for it landed meanwhile, and then by a FENCE of a later owner. |
| `WorldTheorems.RecoveryIsExact` | crates/strom-storage-protocol/src/bootstrap.rs:708-728 | When a bootstrap completes, its FENCE ends the log and its durable forest is the fold from empty of every RUN ever durable, collected ones too. |
| `WorldTheorems.RecoveryStaysExact` | crates/strom-storage-protocol/src/bootstrap.rs:255-272 | However late the handover after the final listing, the recovered forest and base are the log's own states at the FENCE and at the cut. |
| `WorldTheorems.AcknowledgedIsRecovered` | crates/strom-storage-protocol/src/writer.rs:992-1069 | Every success ever told is a state that any later recovery's log passes through. |
| `WorldTheorems.ReplyIsInTheView` | crates/strom-storage-protocol/src/writer.rs:1039-1069 | When a success leaves, its state is at the writer's durable batch, whose state is the published view. |
| `WorldTheorems.ViewIsTheLog` | crates/strom-storage-engine/src/writer.rs:172-193 | A published view is the log's own state at the durable batch. |
| `WorldTheorems.AnomaliesAreExplained` | crates/strom-storage-protocol/src/bootstrap.rs:232-250 | The refresh after an anomaly exits Fenced by a newer generation, never with a contradiction. |
| `WorldTheorems.UniqueAuthority` | crates/strom-storage-engine/src/store/seal.rs:45-59 | No two processes ever hold the owner token of one generation, at one moment or two. |
| `WorldTheorems.SealsFormAChain` | crates/strom-storage-domain/src/seal.rs:27-60 | Generations are gap-free, of one partition, replay under an older owner, and never move the cut back. |
| `WorldTheorems.SealsAreConstructible` | crates/strom-storage-domain/src/seal.rs:27-60 | In every run every published Seal passes the checks on the Seal, its trees, its runs and its table identities. |
| `WorldTheorems.PreparedIsConstructible` | crates/strom-storage-engine/src/checkpoint/prepare.rs:349-368 | So does every successor prepared for a live writer, published or not. |
| `WorldTheorems.CandidateClearsHistory` | crates/strom-storage-protocol/src/bootstrap.rs:897-911 | A FENCE planned under a claim that is the newest Seal lies right behind every coordinate ever occupied, collected ones included. |
| `WorldTheorems.DeleteHitsItsRun` | crates/strom-storage-engine/src/store/wal.rs:207-241 | An unconditional delete, however late, removes the very RUN its collector had read. |
| `WorldTheorems.CheckpointsAreTransparent` | crates/strom-storage-protocol/src/writer.rs:816-873 | A live writer's base folded with the RUNs after its cut is its durable state, whatever was installed in between. |
| `WorldTheorems.RunsLeaveRoom` | crates/strom-storage-protocol/src/writer.rs:1148-1152 | Every RUN ever written leaves its successor within 1024 of the newest cut, at all later moments. |
| `WorldTheorems.TakeoverIsBounded` | crates/strom-storage-protocol/src/bootstrap.rs:477-520 | A takeover of the newest claim passes the bound if and only if the coordinate behind the log is within 1024 of the cut and not the last; right after a RUN the span is always within it. |
| `WorldTheorems.FenceLoopAdvances` | crates/strom-storage-protocol/src/bootstrap.rs:601-644 | Each listing of the loop over occupied candidates strictly advances inside the suffix bound. |
| `WorldAttempts.AnswerStaysWithin` | crates/strom-storage-protocol/src/bootstrap.rs:477-644 | Whatever the store answers, honest or not, a bootstrap keeps its FENCE candidates strictly ascending inside the 1024 coordinates behind its cut. |
| `WorldAttempts.FenceLoopEnds` | crates/strom-storage-protocol/src/bootstrap.rs:601-644 | Over every run each process asks for FENCEs at strictly rising coordinates and at most 1024 times. |
| `WorldProgress.TakeoverCanComplete` | crates/strom-storage-protocol/src/bootstrap.rs:175-739 | From every reachable world whose suffix has room, a process that starts now and is left alone becomes the writer, serves the fold of the whole log, and leaves the cut, other processes and other requests as they were. |
| `WorldProgress.ReplaySucceeds` | crates/strom-storage-protocol/src/bootstrap.rs:646-739 | While its claim is the newest Seal a replay meets no anomaly: each coordinate holds the log's own object, in owner order and folding. |
| `WorldLimits.SuffixRunsOut` | crates/strom-storage-protocol/src/suffix.rs:35-60 | From every reachable world takeovers that crash one after the other fill the suffix, and then the next takeover, its claim the newest, can only exit as retryable. |
| `WorldLimits.ExhaustionHappens` | crates/strom-storage-protocol/src/bootstrap.rs:477-520 | As many crashing takeovers as the suffix has coordinates reach a world with a full suffix, no writer and no checkpoint on its way. |
| `WorldLimits.ExhaustedForGood` | crates/strom-storage-protocol/src/bootstrap.rs:477-520 | From such a world no run ever has a live writer again. |
| `WorldRefill.LateFenceSettles` | crates/strom-storage-engine/src/store/wal.rs:83-94 | A reachable world in which a collected coordinate is occupied again: a FENCE of owner 3 stands where a RUN of owner 2 was first, with a RUN of owner 2 above it; every Seal of the run passes its construction checks. |
| `WorldRefill.OwnerAnomalyHappens` | crates/strom-storage-protocol/src/bootstrap.rs:679-706 | A reachable world in which a superseded bootstrap replaying over such a FENCE reads a RUN of another owner than the one in force and goes to refresh. |

## Left out

- HTTP server, extractors, response headers, process configuration and the `strom-db` facade: plumbing around the protocol.
- Byte encodings of Seals, WAL objects and tables, and their size estimates beyond the counted bounds: an encoded object stands for its value, and the exits for objects that cannot be encoded are absent.
- Object-store transport, etags and listing pages: only create-if-absent with its four evidence classes, read, newest and delete.
- Tokio tasks, channels and clocks: an effect completes at most once, time is a number passed to each step.
- Randomness and the minting of partition identities: a partition is a number chosen when a bootstrap starts.
- Parsing of stream paths, content types and expiry policies: strings inside their length bounds and opaque values.
- Collection of dropped tables and table reads racing with it: such a read may report a contradiction in the model.
- The chunk loop and encoded-size planning of checkpoint preparation: only what they must produce.
- WriterMachines.WriterMachine.TakeCheckpoint: the attempt counter is unbounded, so its u64 exhaustion is not modelled; `NodeTheorems.AttemptsAreTurns` says how many turns that would take.
- Checkpoints.PreparationExists: shows a preparation with one table a store, because where preparation cuts its tables is not modelled.
- ForestChecks.TryForest: takes the maps as rows in key order, which `DirectoryInOrder` and `RecordsInOrder` list, because a map here has no order to walk in.
- What an operator does about a partition whose suffix is exhausted.
- Read paths of a running engine beyond the published view.
