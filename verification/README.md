# Verification of the certified history record

This project models the extractor's durable record of a blockchain and the workers above it, and proves
their properties with Dafny 4.11. `dafny verify dfyconfig.toml` checks everything.

The extractor follows a chain backwards from a target tip, one bounded page at a time, keeps every block
header it ever saw as an immutable fact, and certifies a block only when its whole prefix down to the start
of its scope is proved from stored facts. Two implementations say what "proved" means: the incremental walk
of `run_history`, and the SQL trigger `certify_history`, which walks the parent links again on its own.

## Files

| file | what it holds |
|---|---|
| `Wrappers.dfy` | the nullable column |
| `HistoryState.dfy` | facts, retained conflicts, certified blocks and the coverage row of one scope |
| `Certification.dfy` | the trigger: recursive walk, check, suffix insert, and what certification means |
| `Agreement.dfy` | why a chain assembled by the incremental walk is accepted by the recursive one |
| `HistorySteps.dfy` | every store operation as a transition; soundness, monotonicity, conflicts, row counts over all runs |
| `HistoryCursor.dfy` | the durable cursor and its floor; the last page of a cycle |
| `HistoryStore.dfy` | the store as a class whose methods work row by row and refine the transitions |
| `StartHash.dfy` | the expected hash of a scope's first block, over all steps, against headers that lie about heights |
| `Backfill.dfy` | the page checks of the walk, the source's answers, and the state one iteration keeps |
| `Joins.dfy` | joining at a certified block, with whole, linked and lying headers |
| `BackfillCause.dfy` | why a run ends, how it goes on, and what a cooperative source is promised |
| `BackfillRun.dfy` | `run_history` as a loop over any script of answers, with crash points and interleaved live facts |
| `WedgedRun.dfy` | a concrete run that wedges its row, and every run after it |
| `WriteOrder.dfy` | the write-order lock: writers, rollbacks, id gaps and paging readers |
| `Capture.dfy`, `CaptureWriter.dfy` | the batch transaction: facts, observations, capture sequences, current instances and the per-batch cache |
| `Scheduler.dfy` | the block-history worker with its pending, deferred and retry sets |
| `HistoryService.dfy` | the worker over the record: what a settlement says about the instance's scope |
| `Tracker.dfy` | the delta encoder of mutable state |
| `Watchdog.dfy` | the stall watchdog of a live stream |
| `FeeJobs.dfy` | the fee queue, its loop, and the checked fee of one transaction |
| `ChainWork.dfy` | chain work of fetched node blocks and their byte order |
| `BmmRequests.dfy` | canonical auction samples |

## What is assumed

- A Postgres transaction is atomic: it commits as a whole or leaves every table as it was. The write-order
  advisory lock is mutual exclusion.
- The SHA-256 identity of a payload is injective, so two facts are one row exactly when their contents agree;
  `IS NOT DISTINCT FROM` is equality of optional values. An instance id determines its instance.
- A scope has one constant start height, which `prepare_cycle` enforces
  (`extractors/enforcer/src/backfill.rs:651`). Every source tip carries a height. Every query of the history
  tables selects one scope, so a record models one scope, and one worker per scope writes its coverage row.
- A source may answer anything. Where a theorem needs more it says so through `Source.trust`: `CommittedLinks`
  fixes only the parent each hash names, as a hash commits to it, and leaves the heights free; `OneHeader` also
  fixes the height. Soundness of certification needs neither. The chain-work theorems about a whole
  page also take it that no block has the all-zero hash (`NoZeroBlock`). Between any two store calls other
  workers may record any live facts and the process may stop; a store call that fails without being settled
  is such a stop.
- The work that a raw block's target proves is a 256-bit integer (`ChainWork.BlockIsProvedIff`).
- Time is a number supplied with each event. Hashes are numbers compared for equality; where bytes matter
  (`ChainWork`) they are modelled as bytes.

## What the proofs found

- The trigger's own walk recognises a certified block by hash alone. Without the scope-wide conflict check it
  is unsound (`WalkAloneIsUnsound`); it is sound exactly when the header it joins at has the height the proof
  recorded (`CertifySoundIff`). With the conflict check soundness is unconditional.
- The walk takes the floor of a join from the fetched header (`extractors/enforcer/src/backfill.rs:434-436`), not
  from the stored proof. A lying header in a verified page can therefore make the durable floor one that nothing
  proves (`LyingJoinBreaksFloor`, reached by a concrete run; exact condition in `JoinFloorGoodIff`), but the page
  that lies is never recorded as the end of a cycle (`LyingJoinIsCaught`).
- If the target is gone and the source's tip lies below the scope's start, the iteration leaves a cursor at or
  below its own floor, `blocks_through_floor` fails on it, and no later run gets the scope out of that row. A
  walkable row is wedged by an iteration, and by a whole run, exactly when an iteration meets `Wedges`: it gets to
  its request, the target is gone, the tip is lower than the start and the cycle fits (`WalkOnce`, `Run`,
  `FullCycleAboveIff`). `WedgedRun.LosesItsTarget` is such a run, and `NeverRecovers` follows it.
- The expected start hash is not compared when a cycle ends at a floor with a hash. With committed links that is
  enough, whatever heights the headers claim: no other block is ever certified at the start
  (`StartHash.StepKeepsStart`, and `Run`), and the trigger never refuses the end of a cycle, even over a floor that
  a lying height made (`StartHash.KnownFloorEnds`, and `Run`).
- The branch "still failed to reach its floor" cannot be taken (`Run` and `RecordVerified`), and neither can
  the scheduler's removal of a queued request for the instance in service (`Worker.Serve`). `prepare_cycle` never
  meets a suspended row that cannot be resumed (`PrepareCycle`).
- If an active-sidechains reading names a slot twice, the cache and the table can disagree
  (`RepeatedSlotDisagrees`, exact condition in `CacheAgreesIff`); with distinct slots they are equal.
- A counter that has saturated at 2^64 - 1 hides a live event from the watchdog, and the next tip move arms the
  alarm too early. `AlarmIsExactIff` says for every ordered trace when the alarm is exact.
- If facts became visible out of id order, the fee queue would lose some for good (`LateFactIsLost`); the
  write-order lock excludes this (`RowsAppearInIdOrder`).

## Model

| member | source | states |
|---|---|---|
| `HistoryState.InsertKeepsConflictsExact` | shared/schema/0010_official_contract_9.sql:27-42 | after any insert the conflict table holds exactly the pairs of different facts about one block |
| `HistoryState.NoConflictMeansSingle` | shared/src/store.rs:1634-1649 | no retained conflict if and only if no two facts of the scope disagree about a block |
| `Certification.AcceptedPathIsChain` | shared/schema/0010_official_contract_9.sql:107-115 | the count, low, high and joined check passes only for one hash-linked chain from the target to the start or to a certified block |
| `Certification.HashCount` | shared/schema/0010_official_contract_9.sql:107-110 | the count of distinct hashes equals the count of rows if and only if no block is walked twice |
| `Certification.AddProofsMeaning` | shared/schema/0010_official_contract_9.sql:150-155 | the suffix insert adds every walked block that had no proof and changes no existing proof |
| `Certification.CertifySoundIff` | shared/schema/0010_official_contract_9.sql:75-155 | an accepted walk keeps certification sound if and only if its join has the certified height |
| `Certification.CertifyKeepsSound` | shared/schema/0010_official_contract_9.sql:75-155 | with no retained conflict a completion keeps certification sound and certifies the target at its height |
| `Certification.WalkAloneIsUnsound` | shared/src/store.rs:1634-1649 | without the conflict check an accepted walk can certify a block whose prefix is not proved |
| `Certification.CertifiedHasWholePrefix` | shared/schema/0008_observation_quality.sql:64-66 | a certified block has a stored, hash-linked, certified ancestor at every height down to the start |
| `Agreement.StoredChainIsAccepted` | shared/schema/0010_official_contract_9.sql:107-115 | any stored chain from the target to the start, a certified block or a certified parent is accepted by the recursive walk |
| `HistorySteps.EveryReachableRecordIsSound` | shared/src/store.rs:1456-1898 | over every sequence of operations certification stays sound, conflicts exact and the row well shaped |
| `HistorySteps.PageIsNeverMalformed` | shared/schema/0003_history_coverage.sql:62-68 | a page transaction never violates the shape CHECKs |
| `HistorySteps.ProofIsNeverLost` | shared/src/store.rs:1523-1538 | over every sequence facts, conflicts and proofs are only added to |
| `HistorySteps.ConflictBarsCompletion` | shared/src/store.rs:1621-1649 | once a conflict is retained no sequence of operations completes a cycle or certifies a block, whatever happens to the row |
| `HistorySteps.ConflictingPageIsRetained` | shared/src/store.rs:1621-1658 | a conflicting page stores its facts, keeps the cursor and the proofs, and suspends the row with the conflict message |
| `HistorySteps.PageVerdict` | shared/src/store.rs:1621-1649 | a page at the cursor is quarantined if and only if one of its facts is contradicted, or it is the last and any facts of the scope disagree; any other recorded page moves the row to its next block or completes it |
| `HistorySteps.PageCommitsIff` | shared/src/store.rs:1574-1709 | a page is committed if and only if it is not empty, its heights fit, a running row stands at its cursor, and it is not a conflict-free last page without proof |
| `HistorySteps.StaleStepChangesNoRow` | shared/src/store.rs:1456-1898 | pages, floors, page sizes, failures, resumptions and retirements change nothing of a row that is not where their writer saw it |
| `HistorySteps.RowLifecycle` | shared/src/store.rs:1711-1898 | the whole row after each settlement, resumption, retirement or resize, and which operations may change a row's status |
| `HistorySteps.RowsRecordedAreConserved` | shared/src/store.rs:1600-1658 | the row count grows by exactly the facts that history pages insert first, over cycles, restarts and conflict pages |
| `HistoryCursor.CursorSurvivesEveryRun` | shared/src/store.rs:1456-1898 | over every interleaving an unfinished row's facts link its target down to the block above the cursor and a row suspended for a conflict has one, and with one header per hash its floor is certified or just below the start |
| `HistoryCursor.CoveredTipMovesOnlyAtCompletion` | shared/src/store.rs:1650-1661 | the covered tip changes only by a completing page, to that cycle's certified target |
| `HistoryCursor.LastPageIsAccepted` | extractors/enforcer/src/backfill.rs:456-571 | a final page that reaches the start, the covered tip or a certified ancestor is never refused by the trigger: it completes if and only if no facts disagree |
| `HistoryStore.Store.InsertFact` | shared/schema/0010_official_contract_9.sql:27-42 | one insert with the trigger's row-by-row comparison equals the specified transition |
| `HistoryStore.Store.BeginCycle` | shared/src/store.rs:1486-1572 | the upsert keeps the old covered tip and row count and resets the cursor to the target, or changes nothing |
| `HistoryStore.Store.CertifiedFloor` | shared/src/store.rs:1418-1454 | the certified hash of highest proved height among the page's hashes, or none if none is certified |
| `HistoryStore.Store.SetFloor` | shared/src/store.rs:1456-1484 | changes only the floor, and only of a running row standing at the cursor |
| `HistoryStore.Store.WalkPath` | shared/schema/0010_official_contract_9.sql:77-106 | the level-by-level loop yields the same rows, in order, as the recursive walk |
| `HistoryStore.Store.CertifyHistory` | shared/schema/0010_official_contract_9.sql:67-157 | refuses exactly the walks that do not pass the check, else inserts exactly the new proofs |
| `HistoryStore.Store.InsertPage` | shared/src/store.rs:1599-1619 | the page's facts go in one after the other as specified, and exactly the new ones are counted |
| `HistoryStore.Store.WriteRow` | shared/src/store.rs:1650-1692 | the row is written and a completing one certifies its target; a refused update changes nothing |
| `HistoryStore.Store.RecordPage` | shared/src/store.rs:1574-1709 | the whole page transaction equals the specified transition, with every table restored when it fails |
| `HistoryStore.Store.Resize` | shared/src/store.rs:1711-1752 | changes only the page size and message of a running row |
| `HistoryStore.Store.Resume` | shared/src/store.rs:1754-1793 | reopens a suspended or superseded row at its own cursor |
| `HistoryStore.Store.Settle` | shared/src/store.rs:1795-1864 | a running row becomes an error or superseded by instance currency, others keep their status |
| `HistoryStore.Store.Supersede` | shared/src/store.rs:1866-1898 | only running and failed rows become superseded |
| `StartHash.NewStartIsOldest` | shared/schema/0010_official_contract_9.sql:77-106 | when the recursive walk ends at the start with a block not yet certified, that block is the last one the incremental walk submitted |
| `StartHash.KnownFloorEnds` | extractors/enforcer/src/backfill.rs:456-474 | with committed links a page that meets its floor ends at a certified block, at the start or at a certified parent, whatever heights made that floor |
| `StartHash.StepKeepsStart` | extractors/enforcer/src/backfill.rs:456-474 | with committed links and any heights, every step the backfill takes keeps all certified blocks at the start height equal to the expected one |
| `Backfill.VerifiedPageContinues` | extractors/enforcer/src/backfill.rs:839-892 | the page check passes if and only if the page is a non-empty hash-linked run from the cursor of at most the requested length |
| `Backfill.StepIsGood` | shared/src/store.rs:1456-1898 | every step the backfill takes keeps soundness, cursor, floor and start as far as the source is trusted, and never loses a proof |
| `Backfill.FreshScopeIsGood` | extractors/enforcer/src/backfill.rs:639-649 | a scope without rows satisfies everything the walk keeps, with any source and start |
| `Joins.JoinFloorGoodIff` | extractors/enforcer/src/backfill.rs:429-448 | the floor update of a join succeeds, and the floor in the new row is proved if and only if the header stands at the start or names a certified parent |
| `Joins.HonestJoinIsGood` | extractors/enforcer/src/backfill.rs:429-448 | with one header per hash the floor in the row after a join is proved |
| `Joins.LinkedJoinIsKnown` | extractors/enforcer/src/backfill.rs:429-448 | with committed links the floor of a join lies, down the parents, just below the joined certified block, whatever height its header claims |
| `Joins.LyingJoinBreaksFloor` | extractors/enforcer/src/backfill.rs:402-448 | from a record reached by a concrete run, a page that passes the check makes the durable floor unproved |
| `Joins.LyingJoinIsCaught` | shared/src/store.rs:1621-1649 | a page with a header that contradicts a proof is quarantined and certifies nothing |
| `BackfillCause.CooperativeKeepsTarget` | extractors/enforcer/src/backfill.rs:207-612 | good pages never replace the target: it stays that of the unfinished cycle, else the requested tip |
| `BackfillCause.EndsOrGoesOn` | extractors/enforcer/src/backfill.rs:207-612 | an iteration that got a smaller page to ask for, another target, a part of the walk or a missed floor ends only if that part is contradicted |
| `BackfillCause.OneEnding` | extractors/enforcer/src/backfill.rs:207-612 | turn, proofs and resulting record determine how an iteration ends |
| `BackfillCause.OneWayOn` | extractors/enforcer/src/backfill.rs:207-612 | the turn determines target, cursor, floor and page size of the next iteration |
| `BackfillCause.AsksNothingIff` | extractors/enforcer/src/backfill.rs:174-205 | a run asks nothing if and only if its instance is not current, the scope is quarantined, the tip is below the start, the tip is covered or the new cycle does not fit; the first two have their own outcomes |
| `BackfillCause.CooperativeRunCompletes` | extractors/enforcer/src/backfill.rs:174-613 | if every answer is a good page and nothing interrupts, a run completes exactly the target it started with, finds the requested tip covered, or finds a conflict |
| `BackfillCause.WedgedRunFails` | extractors/enforcer/src/backfill.rs:803-816 | a run on a wedged row that is not stopped makes no request: it reports the quarantine if there is one and else fails on the cursor |
| `BackfillRun.PageIsUntroubled` | extractors/enforcer/src/backfill.rs:512-571 | a submitted page is refused for no reason but an unproved floor, and for none if it ends at a proved place, as every last page of a source with committed links does |
| `BackfillRun.HandleUnavailable` | extractors/enforcer/src/backfill.rs:309-400 | the walk restarts on the current tip if and only if the target itself is gone and the new cycle fits its columns, and then the row is wedged if and only if that tip is below the start; otherwise the exact target is kept, and each outcome has its cause |
| `BackfillRun.JoinCertified` | extractors/enforcer/src/backfill.rs:414-449 | the page is cut at the certified block, whose parent becomes the durable floor |
| `BackfillRun.RecordVerified` | extractors/enforcer/src/backfill.rs:450-571 | a join always ends the cycle; a missed floor restarts the same target as a full cycle once; any other unfinished page moves the cursor to just below its oldest block; each ending has its cause |
| `BackfillRun.ShrinkPage` | extractors/enforcer/src/backfill.rs:244-281 | a page that is too large is halved at the same cursor, durably, unless the resize itself fails |
| `BackfillRun.WalkOnce` | extractors/enforcer/src/backfill.rs:207-612 | one iteration keeps every invariant; it goes on if and only if the turn gives it a reason to and nothing contradicts the part it recorded, and then as its answer says: a page that is too large is halved at the same cursor; else it ends with the outcome that turn and record determine; a walkable row is wedged if and only if its request finds the target gone, the tip is below the start and the full cycle fits |
| `BackfillRun.PrepareCycle` | extractors/enforcer/src/backfill.rs:627-706 | an unfinished cycle is taken up where it stands, a new one walks to the tip, down to a lower covered tip or else to the start, in pages of the configured size or the row's if smaller; there is nothing to do if and only if the completed target is the tip; it is refused only for a tip below the start or values that do not fit, and then changes nothing |
| `BackfillRun.Run` | extractors/enforcer/src/backfill.rs:174-613 | terminates for finitely many target replacements; an inactive instance is superseded and a quarantined scope reported without a request or change; every other outcome is the one its script determines and names the last target; with committed links the proof is never refused, no block but the expected one is certified at the start, and a cooperative script completes the requested tip or the unfinished target; a walkable row is wedged if and only if an iteration meets the condition, and a wedged one stays wedged |
| `BackfillRun.FullCycleAboveIff` | extractors/enforcer/src/backfill.rs:708-729 | a full cycle leaves a walkable cursor if and only if its target is not below the start, and a wedged one otherwise |
| `WedgedRun.LosesItsTarget` | extractors/enforcer/src/backfill.rs:309-400 | a concrete run on a fresh scope fails on its own cursor and leaves a wedged row |
| `WedgedRun.NeverRecovers` | extractors/enforcer/src/backfill.rs:803-816 | any run on a wedged row that is not stopped, with any tip from the start on and any answers, reports the quarantine or fails, and leaves the row wedged |
| `WriteOrder.ReaderNeverSkips` | docs/official-sources.md:83-86 | at every moment a reader has been given every row at or below its cursor that will ever be committed |
| `WriteOrder.RowsAppearInIdOrder` | shared/src/store.rs:54-75 | a newly visible row has a larger id than every row visible before |
| `WriteOrder.InsertedRowAppearsAtCommit` | shared/src/store.rs:54-75 | an inserted row gets the next id and is visible from its transaction's commit on, not before, and never after a rollback |
| `WriteOrder.BeginsIff` | shared/src/store.rs:54-75 | a writer gets its transaction if and only if no other one is open |
| `WriteOrder.UnorderedWritersLoseRows` | shared/src/store.rs:54-75 | without the lock a concrete run leaves a reader beyond a row that commits later |
| `WriteOrder.ReadPageIsExact` | docs/official-sources.md:83-86 | a page by id keeps the reader's rows exactly the committed ids up to its cursor, once each, ascending |
| `WriteOrder.ReadPageIsFull` | docs/official-sources.md:83-86 | a page gives as many rows as the limit and the unread rows allow |
| `WriteOrder.ReaderCatchesUp` | docs/official-sources.md:83-86 | a page with enough room leaves the reader with exactly the committed rows |
| `Capture.DistinctReadingIsTheTable` | shared/src/store.rs:2261-2350 | with distinct slots the table, the cache and the reading agree, and unchanged rows keep their observation time |
| `Capture.CacheAgreesIff` | shared/src/store.rs:2261-2350 | the cache answers as the table if and only if each slot's last entry is the row the table kept |
| `Capture.RepeatedSlotDisagrees` | shared/src/store.rs:2261-2350 | a reading that repeats a slot can leave cache and table apart |
| `Capture.BatchObservesEachEvent` | shared/src/store.rs:2198-2258 | a committed batch adds one observation per event, of one fact that describes it, under consecutive sequences |
| `Capture.BatchCommitsIff` | shared/src/store.rs:834-872 | a batch commits if and only if the run is active, its explicit instance is registered and every event can be recorded; each event is then observed under its explicit instance or the one current when its turn came |
| `Capture.BatchRegistersNamed` | shared/src/store.rs:2261-2350 | exactly the instances named by the readings are registered, authoritative or not |
| `Capture.EverythingIsObservedOnce` | shared/src/store.rs:2389-2410 | over every run each tip move of the active run and each event of a committed batch is one observation with its own sequence |
| `Capture.SequencesAreExact` | shared/src/store.rs:2389-2410 | over every run the sequences of events and tip moves are exactly 1 to the last, disjoint and gapless |
| `Capture.ReplayAddsNoFacts` | shared/schema/0005_event_fact_identity.sql:20-24 | replaying a global or explicit-instance batch adds no fact and one observation per event |
| `CaptureWriter.Writer.UpdateSidechainInstances` | shared/src/store.rs:2261-2350 | the row-by-row update equals the specified table and cache; a reading that is not authoritative changes neither |
| `CaptureWriter.Writer.Resolve` | shared/src/store.rs:2142-2196 | the tag is explicit, cached or looked up, and a lookup is cached |
| `CaptureWriter.CachedInsertIsTable` | shared/src/store.rs:2142-2196 | with a true cache and a clean reading one insert is tagged as the table says, and the cache stays true |
| `CaptureWriter.Writer.InsertBatch` | shared/src/store.rs:844-856 | on every input the loop through one cache equals the specified batch and keeps the capture sequences |
| `CaptureWriter.Writer.RecordBatch` | shared/src/store.rs:834-872 | on every input all events are recorded as specified, or every table is restored and no sequence is used up |
| `CaptureWriter.RecordCachedIsTable` | shared/src/store.rs:834-872 | if authoritative readings name each slot once, the cached batch equals the one that reads every tag from the table |
| `CaptureWriter.Writer.RecordTip` | shared/src/store.rs:983-1031 | an active run gains exactly one tip observation under the next sequence, a finished run nothing |
| `Scheduler.RemoveRetry` | extractors/enforcer/src/runtime.rs:426-446 | taking a retry leaves the deferred ids exactly the ids in the retries, each once |
| `Scheduler.EntryKeepsAccounts` | extractors/enforcer/src/runtime.rs:397-608 | settling the instance in service, or raising work that waits, keeps every raised item settled or waiting |
| `Scheduler.TurnKeepsValid` | extractors/enforcer/src/runtime.rs:403-607 | every turn keeps the deferred ids, the queues and the accounts of all raised work |
| `Scheduler.NothingConsumedIsLost` | extractors/enforcer/src/runtime.rs:388-608 | for any script and turn, a request or tip move consumed at that turn is settled later or still waits at the end, and is settled if the worker ends normally |
| `Scheduler.TurnActivatesIff` | extractors/enforcer/src/runtime.rs:441-466 | after a turn an instance is activated if and only if it was found current then, or was activated before and its slot not taken over, and it was not settled as inactive |
| `Scheduler.ActivationLasts` | extractors/enforcer/src/runtime.rs:388-608 | over any script an activation lasts until its instance is found inactive or replaced |
| `Scheduler.TipMoveQueues` | extractors/enforcer/src/runtime.rs:621-635 | a tip move taken up leaves a request to that tip pending for every activated instance |
| `Scheduler.ToldOfEveryMove` | extractors/enforcer/src/runtime.rs:388-635 | an instance once found current is queued for every later tip move, unless found inactive or replaced in between |
| `Scheduler.SettlementHasCause` | extractors/enforcer/src/runtime.rs:441-607 | every settlement is of the instance in service, and one of its passes or the look before them is the reason for it |
| `Scheduler.ChannelsCloseOnce` | extractors/enforcer/src/runtime.rs:403-440 | each channel is closed by its own wake of an idle worker and by nothing else |
| `Scheduler.Worker.ScheduleRetry` | extractors/enforcer/src/runtime.rs:610-619 | one retry per instance id: a second one for the same id changes nothing |
| `Scheduler.Worker.QueueTipReconciliations` | extractors/enforcer/src/runtime.rs:621-635 | exactly one request per activation, for that tip |
| `Scheduler.Worker.AfterPass` | extractors/enforcer/src/runtime.rs:482-606 | the whole new state for each way a pass ends: settled, retried with the left target, or another pass on the fresh tip |
| `Scheduler.Worker.Serve` | extractors/enforcer/src/runtime.rs:441-607 | the whole new state after one service, which never finds a queued request of its own slot |
| `Scheduler.Worker.Turn` | extractors/enforcer/src/runtime.rs:403-607 | the whole new state after one turn: the smallest pending slot first, else the request, retry or tip move that woke the worker |
| `Scheduler.Worker.Run` | extractors/enforcer/src/runtime.rs:388-608 | the loop ends in exactly the state and with exactly the exit that the script determines, and keeps the accounts |
| `HistoryService.CoveredHasWholePrefix` | extractors/enforcer/src/runtime.rs:540-606 | a tip that the worker settled as covered has a stored certified block at every height down to its scope's start |
| `HistoryService.ServeInstance` | extractors/enforcer/src/runtime.rs:468-607 | the service's passes are runs of the walk on the instance's scope, each to the tip read after the one before; the last one's outcome determines what the worker retries, settles or drops; every tip settled as covered is certified there |
| `Tracker.PatchRebuildsIff` | extractors/enforcer/src/state.rs:183-203 | patching the baseline with the changes rebuilds the reading if and only if no key has two payloads |
| `Tracker.KeysAgreeIff` | extractors/enforcer/src/state.rs:211-227 | two payloads share a key if and only if kind and slot agree, and only an unexpected payload has none |
| `Tracker.ChangesAreWhatBaseLacks` | extractors/enforcer/src/state.rs:183-203 | against a reading with one payload per kind and slot, exactly the payloads it lacks are reported |
| `Tracker.UnchangedReadingIsQuiet` | extractors/enforcer/src/state.rs:183-203 | reading the same payloads again reports nothing |
| `Tracker.ChangesKeepOrder` | extractors/enforcer/src/state.rs:183-203 | the changes stand in the order of the reading |
| `Tracker.ChangesAreCounted` | extractors/enforcer/src/state.rs:183-203 | a differing payload is reported as often as it was read |
| `Tracker.FollowerHoldsBaseline` | extractors/enforcer/src/state.rs:154-180 | a consumer that applies only tip-matched changes always holds the last tip-matched reading |
| `Tracker.ChangesBetweenMatchedReadings` | extractors/enforcer/src/state.rs:160-174 | the changes between consecutive tip-matched readings are reported whatever comes between |
| `Tracker.Tracker.TakeChanged` | extractors/enforcer/src/state.rs:183-203 | the loop reports exactly the differing payloads; an unexpected payload changes nothing |
| `Tracker.Tracker.TakeObservation` | extractors/enforcer/src/state.rs:154-180 | the baseline is the last tip-matched reading or the seed, and changes are measured against it |
| `Watchdog.StateIsExact` | extractors/enforcer/src/runtime.rs:1795-1823 | for any trace the deadline and the reported tip are set together, by the first silent move past the grace and the last move |
| `Watchdog.FiresIff` | extractors/enforcer/src/runtime.rs:1804-1833 | with an unworn counter the stream fails if and only if a tip move lies a full timeout back with no live event since the move before it |
| `Watchdog.GraceMeaning` | extractors/enforcer/src/runtime.rs:1810-1822 | the first move after a live event is only noted, unless the counter was already saturated |
| `Watchdog.MovesNeverPostpone` | extractors/enforcer/src/runtime.rs:1810-1812 | a later move keeps an armed deadline and only updates the reported tip |
| `Watchdog.AlarmIsExactIff` | extractors/enforcer/src/runtime.rs:1804-1833 | for every ordered trace the alarm is exact at every moment if and only if the counter is unworn, no move has come since, or the first two came at once |
| `Watchdog.CountersWear` | extractors/enforcer/src/runtime.rs:1857-1859 | a trace with a worn counter and one quiet move exists |
| `Watchdog.Forward` | extractors/enforcer/src/runtime.rs:1782-1861 | the loop each ending has exactly its cause: stopped by a shutdown, broken by a closed channel, an ended stream or a failed publication, stalled at the first poll at which the trace says so, and running only when the polls are used up |
| `FeeJobs.EveryRunIsFair` | shared/src/store.rs:1257-1282 | in commit order the jobs are a prefix of the facts, and each attempt is at most the tenth, spaced by the backoff and never after a success |
| `FeeJobs.AttemptsAreBounded` | shared/src/store.rs:2043-2081 | all attempts together are at most ten per committed fact |
| `FeeJobs.DelayDoubles` | shared/src/store.rs:2063-2068 | the wait is one hour at first, doubles, and is never more than a day |
| `FeeJobs.RowAfterAttempt` | shared/src/store.rs:2048-2081 | an attempt leaves its job done, abandoned exactly at the tenth failure, or due after that wait, and no other job changes |
| `FeeJobs.IdleIff` | shared/src/store.rs:1257-1282 | nothing is picked if and only if every fact has a job and every open job waits for a later time |
| `FeeJobs.LateFactIsLost` | shared/src/store.rs:1263-1268 | a fact that becomes visible below the largest job is never picked |
| `FeeJobs.Fees.NextFeeBlock` | shared/src/store.rs:1257-1282 | new facts first in id order, then the retry due the longest; none if and only if every open job waits for later |
| `FeeJobs.Fees.ScheduleFeeJob` | shared/src/store.rs:2048-2081 | the row after an attempt: done, abandoned at the tenth, or due after the capped doubling delay |
| `FeeJobs.Fees.Monitor` | extractors/enforcer/src/fees.rs:25-101 | from any durable queue, every round that finds work makes exactly one attempt at it, through failures and crashes, and the run stays fair and bounded |
| `FeeJobs.TransactionFee` | extractors/enforcer/src/fees.rs:111-129 | the fee is known if and only if all amounts are, no sum overflows and it is not negative; then it is the difference |
| `FeeJobs.TotalAdds` | extractors/enforcer/src/fees.rs:111-129 | the total of an amount is that amount, and totals of parts add up |
| `ChainWork.StoredBytesAreReversed` | extractors/enforcer/src/node.rs:128-134 | the stored little-endian bytes are the node's bytes reversed |
| `ChainWork.SameInteger` | extractors/enforcer/src/node.rs:128-134 | the stored bytes denote the integer the node reported |
| `ChainWork.HeaderWork` | extractors/enforcer/src/node.rs:96-134 | own work is positive, own work plus the parent's total is the total, and nothing leaves 256 bits |
| `ChainWork.HeaderIff` | extractors/enforcer/src/node.rs:96-134 | a header is given if and only if the replies are complete, consistent with the parent's and of growing work, and then carries the reply's fields |
| `ChainWork.BlockIsProvedIff` | extractors/enforcer/src/node.rs:148-175 | a block is accepted if and only if its raw block has the header's hash, parent and time, valid commitments, and proves exactly the header's own work |
| `ChainWork.FetchedBlocksAreProved` | extractors/enforcer/src/node.rs:207-228 | every block of a fetched page is proved so |
| `ChainWork.StepWork` | extractors/enforcer/src/node.rs:148-189 | consecutive blocks add up if and only if the node reported the parent's work alike both times |
| `ChainWork.PageTelescopes` | extractors/enforcer/src/node.rs:207-228 | for any length total work strictly falls along a page and telescopes into the works in between |
| `ChainWork.Fetch` | extractors/enforcer/src/node.rs:207-228 | every requested block along the parent hashes, or nothing because one of them failed |
| `BmmRequests.Convert` | extractors/enforcer/src/convert.rs:49-102 | succeeds if and only if all requests are valid and unique by slot and transaction; the result is a sorted permutation |
| `BmmRequests.ConversionMeaning` | extractors/enforcer/src/convert.rs:49-102 | a conversion exists if and only if every field is valid and no slot and transaction repeat; it lists each request as often as the response does, by slot, then higher bid, then transaction |
| `BmmRequests.OrderedListingIsUnique` | extractors/enforcer/src/convert.rs:88-93 | a bag of requests has one canonical order |
| `BmmRequests.ConversionIsCanonical` | extractors/enforcer/src/convert.rs:49-102 | responses that are permutations of each other convert to the same payload or both fail |
| `BmmRequests.ConversionIsFaithful` | extractors/enforcer/src/convert.rs:49-102 | different bags of requests never convert to the same payload |

## Left out

- Transport, credentials, timeouts as input or output, logging, liveness files and process signals: sources are arbitrary answers and time is a number.
- Library code: protobuf, hexadecimal and amount parsing, Merkle and witness checks and SHA-256 are values that are present or absent.
- The counters of blocks and pages in an outcome, and the wording of error messages: a settled failure has one fixed message, which is not the conflict message.
- BackfillRun.Run: a store failure that is returned without settlement is a crash at that point, not an outcome of its own.
- HistoryCursor.CursorSurvivesEveryRun: the floor half holds only with one header per hash; `LyingJoinBreaksFloor` shows why and `LyingJoinIsCaught` what limits it.
- CaptureWriter.RecordCachedIsTable: takes authoritative readings that name each slot once; `CacheAgreesIff` is exact for one reading, and no exact condition is stated for a whole batch.
- BackfillCause.OneEnding: takes two certified blocks of one page as proved at different heights, which only lying headers can violate; the query orders by height alone and may then name either.
- Capture.SequencesAreExact: covers one run; a new run starts its sequence anew with the same argument.
- HistoryService.ServeInstance: covers the passes of one instance on its own record, not several records at once; a pass in which the process dies is the end of the service.
- Scheduler.Worker.Run: a script is finite, so fairness of the waits and the retry interval are not modelled.
- Watchdog.AlarmIsExactIff: takes event times in order, as a clock supplies them.
- FeeJobs.Fees.Monitor: the pauses between rounds are not modelled, only the clock each round sees.
- ChainWork.PageTelescopes: takes one cumulative work per hash from the node; `StepWork` says exactly when a step adds up without it.
- BmmRequests.Sort: the library sort is modelled by insertion; order and permutation are all that is used.
- Spawning and supervision of workers, worker health, dataset identity, network presets, JSON rendering, deployment, and superseded versions of the SQL functions: no data invariant beyond what is proved here.
