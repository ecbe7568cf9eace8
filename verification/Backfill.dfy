/**
  `run_history`: the resumable newest-first walk over one scope, against a source that may answer
  anything, and a process that may stop between any two store calls.
 */
module Backfill {
  import opened Wrappers
  import opened HistoryState
  import opened Certification
  import opened Agreement
  import opened HistorySteps
  import opened HistoryCursor
  import opened StartHash

  // ---------------------------------------------------------------- the environment

  /** What one request to the source yields; `TooLarge` is the page-pressure kind of error. */
  datatype Answer = Payloads(blocks: seq<Fact>) | NotFound | TooLarge | Transient | Broken

  datatype TipAnswer = Tip(block: Block) | TipTransient | TipBroken

  /** Live facts another worker records meanwhile, and whether the process stops here. */
  datatype Pause = Pause(live: seq<Fact>, crash: bool)

  /** Everything one iteration may observe. */
  datatype Turn = Turn(
    shutdown: bool,
    current: bool,
    answer: Answer,
    tip: TipAnswer,
    probe: Answer,
    currentAtSettlement: bool,
    resizeFails: bool,
    commitFails: bool,
    fetching: Pause,
    recording: Pause)

  datatype Failure =
    | TipBelowStart
    | CycleRefused
    | NotResumable
    | CursorBelowFloor
    | SourceFailure
    | InvalidPage
    | FloorLost
    | WrongStartHash
    | FloorUnreached
    | PageFailure
    | UnexpectedStatus

  datatype Outcome =
    | UpToDate(target: Block)
    | Completed(target: Block)
    | Deferred(target: Block)
    | SupersededScope(target: Block)
    | Interrupted(target: Block)
    | QuarantinedScope(target: Block)
    | Failed(why: Failure)
    | Crashed

  // ---------------------------------------------------------------- pure checks

  /** `target_is_available`: an inconclusive or failed probe classifies nothing. */
  function Availability(probe: Answer): Option<bool> {
    match probe
    case Payloads(blocks) => Some(blocks != [])
    case NotFound => Some(false)
    case _ => None
  }

  function ReplacementTarget(current: Block, persisted: Block, availability: Option<bool>): Option<Block> {
    if current.hash != persisted.hash && availability == Some(false) then Some(current) else None
  }

  /** Blocks from the cursor down to the exclusive floor, if the cursor is above it. */
  function BlocksThroughFloor(cursor: nat, floor: Option<nat>): Option<nat> {
    match floor
    case Some(f) => if cursor > f then Some(cursor - f) else None
    case None => Some(cursor + 1)
  }

  function SaturatingSucc(h: nat): nat {
    if h >= U32_MAX then U32_MAX else h + 1
  }

  predicate VerifyPage(page: seq<Fact>, cursor: Block, requested: nat) {
    && requested > 0 && page != []
    && |page| <= requested
    && page[0].hash == cursor.hash && page[0].height == cursor.height
    && (forall i | 0 <= i < |page| - 1 ::
          page[i].previous == page[i + 1].hash && page[i].height == SaturatingSucc(page[i + 1].height))
    && cursor.height >= |page| - 1
    && page[|page| - 1].height == cursor.height - (|page| - 1)
  }

  lemma {:induction false} VerifiedHeights(page: seq<Fact>, cursor: Block, requested: nat, i: nat)
    requires VerifyPage(page, cursor, requested) && cursor.height < U32_MAX && i < |page|
    ensures i <= cursor.height && page[i].height == cursor.height - i
  {
    if i > 0 {
      VerifiedHeights(page, cursor, requested, i - 1);
      assert page[i - 1].height == SaturatingSucc(page[i - 1 + 1].height);
    }
  }

  /** The page check passes exactly the non-empty hash-linked runs from the cursor, of at most the requested length. */
  lemma VerifiedPageContinues(page: seq<Fact>, cursor: Block, requested: nat)
    requires cursor.height < U32_MAX
    ensures VerifyPage(page, cursor, requested) <==> Continues(page, cursor) && |page| <= requested
  {
    if VerifyPage(page, cursor, requested) {
      forall i | 0 <= i < |page| - 1
        ensures page[i + 1].hash == page[i].previous && page[i + 1].height == page[i].height - 1
      {
        VerifiedHeights(page, cursor, requested, i);
        VerifiedHeights(page, cursor, requested, i + 1);
      }
    }
    if Continues(page, cursor) && |page| <= requested {
      LinkedDescends(page, |page| - 1);
      forall i | 0 <= i < |page| - 1
        ensures page[i].previous == page[i + 1].hash && page[i].height == SaturatingSucc(page[i + 1].height)
      {
        assert page[i + 1].height == page[i].height - 1;
        LinkedDescends(page, i + 1);
      }
    }
  }

  predicate StartHashFits(expected: Option<Hash>, floorHash: Option<Hash>, completes: bool, oldest: Hash) {
    completes && floorHash.None? && expected.Some? ==> oldest == expected.value
  }

  // ---------------------------------------------------------------- what the proofs assume and keep

  /** What a source can be held to: nothing, the parent that each hash commits to, or one whole header per hash. */
  datatype Trust = Anything | CommittedLinks | OneHeader

  /** `world` gives the header of each hash, `startHash` the expected hash of the scope's first block. */
  datatype Source = Source(trust: Trust, world: Hash -> Proof, startHash: Option<Hash>) {
    predicate Linked() {
      !trust.Anything?
    }

    predicate Honest() {
      trust.OneHeader?
    }
  }

  ghost predicate Trusted(source: Source, facts: seq<Fact>) {
    && (source.Linked() ==> Links(source.world, facts))
    && (source.Honest() ==> Agrees(source.world, facts))
  }

  ghost predicate HonestTurn(source: Source, turn: Turn) {
    && (turn.answer.Payloads? ==> Trusted(source, turn.answer.blocks))
    && Trusted(source, turn.fetching.live) && Trusted(source, turn.recording.live)
  }

  ghost predicate Good(r: Record, source: Source) {
    && StoreInv(r) && CursorInv(r) && Trusted(source, r.facts)
    && (source.Linked() ==> StartInv(r, source.world, source.startHash))
    && (source.Honest() ==> FloorInv(r))
  }

  /** The cursor of an unfinished row is above its floor and its target above the start. */
  predicate Above(r: Record) {
    r.coverage.Some? && r.coverage.value.status != Complete && r.coverage.value.next.Some? ==>
      && r.coverage.value.target.height >= r.start
      && BlocksThroughFloor(r.coverage.value.next.value.height, r.coverage.value.floorHeight).Some?
  }

  /** How the record may change, whatever happens. */
  ghost predicate Evolves(before: Record, after: Record) {
    && Keeps(before, after)
    && (HasConflict(before) ==> after.certified == before.certified)
  }

  ghost predicate StepFits(r: Record, step: Step, source: Source) {
    && Fits(r, step)
    && (source.Linked() ==> StartFits(r, step, source.world, source.startHash))
    && (source.Honest() ==> FloorFits(r, step))
    && (step.Live? ==> Trusted(source, [step.fact]))
    && (step.Page? ==> Trusted(source, step.facts))
  }

  lemma StepIsGood(r: Record, step: Step, source: Source)
    requires Good(r, source) && StepFits(r, step, source)
    ensures Good(Apply(r, step), source) && Evolves(r, Apply(r, step))
  {
    hide Sound, ConflictsExact, CursorLinked, FloorGood, RecordPage, StartsAt, FloorKnown, ReachesFloor, Continues;
    StepKeepsStoreInv(r, step);
    StepKeepsCursor(r, step);
    TrustIsKept(r, step, source);
    if source.Linked() {
      StepKeepsStart(r, step, source.world, source.startHash);
    }
    if source.Honest() {
      StepKeepsFloor(r, step);
    }
    if step.Page? {
      PageKeeps(r, step.facts, step.expected, step.next);
    }
    if HasConflict(r) {
      StepWithConflictCompletesNothing(r, step);
    }
  }

  lemma FreshScopeIsGood(start: nat, source: Source)
    ensures Good(EmptyRecord(start), source) && Above(EmptyRecord(start))
  {
    EmptyRecordIsSound(start);
  }

  lemma TrustIsKept(r: Record, step: Step, source: Source)
    requires Trusted(source, r.facts)
    requires step.Live? ==> Trusted(source, [step.fact])
    requires step.Page? ==> Trusted(source, step.facts)
    ensures Trusted(source, Apply(r, step).facts)
  {
    match step
    case Live(f) => assert f in [f];
    case Page(facts, expected, next) =>
      CommittedPage(r, facts, expected, next);
      InsertAllGrows(r, facts);
    case _ =>
  }
}
