/**
  Why a run of the walk ends: what the source, the store or the process must have done for each
  outcome, and hence what a cooperative source is promised.
 */
module BackfillCause {
  import opened Wrappers
  import opened HistoryState
  import opened Certification
  import opened HistorySteps
  import opened HistoryCursor
  import opened Joins
  import opened Backfill

  /** The source says that the cursor's block is not there. */
  predicate Unavailable(answer: Answer) {
    answer.NotFound? || answer == Payloads([])
  }

  /** The persisted target itself is known to be gone, and the source stands elsewhere. */
  predicate Gone(turn: Turn, target: Block) {
    turn.tip.Tip? && turn.tip.block.hash != target.hash && Unavailable(turn.probe)
  }

  /** The source's answers may make this iteration adopt another target. */
  predicate Replaces(turn: Turn) {
    Unavailable(turn.answer) && turn.tip.Tip? && Unavailable(turn.probe)
  }

  /** How many blocks the iteration asks for. */
  function Requested(p: Coverage): Option<nat> {
    if p.next.None? then None
    else
      match BlocksThroughFloor(p.next.value.height, p.floorHeight)
      case None => None
      case Some(remaining) => Some(if remaining < p.page then remaining else p.page)
  }

  /** The answer is a page that passes the check. */
  predicate Usable(p: Coverage, turn: Turn) {
    && turn.answer.Payloads? && Requested(p).Some?
    && VerifyPage(turn.answer.blocks, p.next.value, Requested(p).value)
  }

  /** A full cycle from this start can be written to the row. */
  predicate StartFitsColumn(start: nat) {
    FitsColumn(Below(start))
  }

  /** The iteration gets as far as its request. */
  predicate Proceeds(turn: Turn) {
    !turn.shutdown && turn.current && !turn.fetching.crash
  }

  /** The target is gone and the source's tip lies below the scope's start. */
  predicate Wedges(start: nat, p: Coverage, turn: Turn) {
    && Proceeds(turn) && Requested(p).Some? && Unavailable(turn.answer) && Gone(turn, p.target)
    && turn.tip.block.height < start && StartFitsColumn(start)
  }

  /** A full cycle to `target`. */
  predicate FullCycle(start: nat, p: Coverage, target: Block, p2: Coverage) {
    && p2.status == Running && p2.target == target && p2.next == Some(target)
    && p2.floorHash.None? && p2.floorHeight == Below(start) && p2.page == p.page
  }

  // ---------------------------------------------------------------- how an iteration ends

  /** What an iteration's course depends on besides its turn: `proofs` are the certified blocks when the run began. */
  datatype Scope = Scope(start: nat, proofs: map<Hash, Proof>, linked: bool, expectedStart: Option<Hash>)

  /** Some block of the answer is certified. */
  predicate Meets(proofs: map<Hash, Proof>, blocks: seq<Fact>) {
    exists f | f in blocks :: f.hash in proofs
  }

  /** A certified block of greatest proved height. */
  predicate Highest(proofs: map<Hash, Proof>, blocks: seq<Fact>, f: Fact) {
    f in blocks && f.hash in proofs && forall g | g in blocks && g.hash in proofs :: proofs[g.hash].height <= proofs[f.hash].height
  }

  /** The answer is the last of its cycle, and `oldest` the block it ends at: a join, or the block at the floor. */
  predicate EndsWith(scope: Scope, p: Coverage, blocks: seq<Fact>, oldest: Fact) {
    && blocks != [] && p.next.Some?
    && if Meets(scope.proofs, blocks) then Highest(scope.proofs, blocks, oldest)
       else oldest == blocks[|blocks| - 1] && BlocksThroughFloor(p.next.value.height, p.floorHeight) == Some(|blocks|)
  }

  /** The floor hash that `oldest` has to stand on. */
  function FloorUnder(scope: Scope, p: Coverage, blocks: seq<Fact>, oldest: Fact): Option<Hash> {
    if Meets(scope.proofs, blocks) then JoinFloor(oldest) else p.floorHash
  }

  predicate WrongStart(scope: Scope, p: Coverage, blocks: seq<Fact>, oldest: Fact) {
    !StartHashFits(scope.expectedStart, FloorUnder(scope, p, blocks, oldest), true, oldest.hash)
  }

  predicate MissesFloor(scope: Scope, p: Coverage, blocks: seq<Fact>, oldest: Fact) {
    FloorUnder(scope, p, blocks, oldest).Some? && oldest.previous != FloorUnder(scope, p, blocks, oldest).value
  }

  /** The iteration gets a page that passes the check. */
  predicate Answered(p: Coverage, turn: Turn) {
    Proceeds(turn) && Usable(p, turn)
  }

  /** A page that neither meets a certified block nor reaches the floor. */
  predicate IsPart(scope: Scope, p: Coverage, turn: Turn) {
    && Answered(p, turn) && !Meets(scope.proofs, turn.answer.blocks)
    && BlocksThroughFloor(p.next.value.height, p.floorHeight) != Some(|turn.answer.blocks|)
  }

  /** The last page of a cycle, at the expected start if it has to be and on its floor. */
  predicate IsLast(scope: Scope, p: Coverage, turn: Turn) {
    && Answered(p, turn)
    && exists f | f in turn.answer.blocks ::
         && EndsWith(scope, p, turn.answer.blocks, f)
         && !WrongStart(scope, p, turn.answer.blocks, f) && !MissesFloor(scope, p, turn.answer.blocks, f)
  }

  /** The last page of a cycle does not stand on the covered tip. */
  predicate IsAstray(scope: Scope, p: Coverage, turn: Turn) {
    && Answered(p, turn)
    && exists f | f in turn.answer.blocks ::
         EndsWith(scope, p, turn.answer.blocks, f) && MissesFloor(scope, p, turn.answer.blocks, f)
  }

  /** The last page of a cycle is not at the expected start. */
  predicate IsWrongStart(scope: Scope, p: Coverage, turn: Turn) {
    && Answered(p, turn)
    && exists f | f in turn.answer.blocks ::
         && EndsWith(scope, p, turn.answer.blocks, f) && WrongStart(scope, p, turn.answer.blocks, f)
         && (scope.linked ==> f.height <= scope.start)
  }

  predicate IsSubmitted(scope: Scope, p: Coverage, turn: Turn) {
    (IsPart(scope, p, turn) || IsLast(scope, p, turn)) && !turn.recording.crash
  }

  /** A request without a page that is worth retrying later. */
  predicate IsDeferred(p: Coverage, turn: Turn) {
    && Proceeds(turn) && Requested(p).Some?
    && (|| turn.answer.Transient?
        || (turn.answer.TooLarge? && p.page <= 1)
        || (Unavailable(turn.answer) && !Gone(turn, p.target) && !turn.tip.TipBroken?))
  }

  /** A failure that is settled on the row. `refused` says that the page's proof was refused. */
  predicate IsFatal(scope: Scope, p: Coverage, turn: Turn, refused: bool, why: Failure) {
    && Proceeds(turn) && Requested(p).Some?
    && match why
       case SourceFailure => turn.answer.Broken? || (Unavailable(turn.answer) && turn.tip.TipBroken?)
       case InvalidPage => turn.answer.Payloads? && turn.answer.blocks != [] && !Usable(p, turn)
       case WrongStartHash => IsWrongStart(scope, p, turn)
       case PageFailure =>
         || (turn.answer.TooLarge? && p.page > 1 && turn.resizeFails)
         || (IsSubmitted(scope, p, turn) && (turn.commitFails || (refused && IsLast(scope, p, turn))))
       case _ => false
  }

  const SETTLED := {SourceFailure, InvalidPage, WrongStartHash, PageFailure}

  /** A new cycle that its columns cannot hold. */
  predicate IsRefused(scope: Scope, p: Coverage, turn: Turn) {
    && Proceeds(turn) && Requested(p).Some?
    && (|| (IsAstray(scope, p, turn) && !StartFitsColumn(scope.start))
        || (Unavailable(turn.answer) && Gone(turn, p.target)
            && !(turn.tip.block.height <= MAX_HEIGHT && StartFitsColumn(scope.start))))
  }

  /** The page's facts are in the record and some of them, or at the last page any of the scope's, disagree. */
  predicate FindsConflict(scope: Scope, p: Coverage, turn: Turn, after: Record) {
    && IsSubmitted(scope, p, turn) && !turn.commitFails
    && (IsPart(scope, p, turn) ==> Disagrees(after.facts, turn.answer.blocks))
    && (IsLast(scope, p, turn) ==> HasConflict(after))
  }

  /** Exactly when an iteration that started from progress `p` ends so. */
  predicate Cause(scope: Scope, p: Coverage, turn: Turn, refused: bool, after: Record, o: Outcome) {
    match o
    case UpToDate(_) => false
    case Interrupted(target) => target == p.target && turn.shutdown
    case SupersededScope(target) =>
      && target == p.target && !turn.shutdown
      && (|| !turn.current
          || (!turn.currentAtSettlement
              && (IsDeferred(p, turn) || exists why | why in SETTLED :: IsFatal(scope, p, turn, refused, why))))
    case Crashed =>
      && !turn.shutdown && turn.current
      && (turn.fetching.crash || (turn.recording.crash && (IsPart(scope, p, turn) || IsLast(scope, p, turn))))
    case Completed(target) =>
      && target == p.target && IsLast(scope, p, turn) && IsSubmitted(scope, p, turn)
      && !turn.commitFails && !refused && !HasConflict(after)
    case QuarantinedScope(target) =>
      target == p.target && (refused ==> !IsLast(scope, p, turn)) && FindsConflict(scope, p, turn, after)
    case Deferred(target) => target == p.target && turn.currentAtSettlement && IsDeferred(p, turn)
    case Failed(CursorBelowFloor) => Proceeds(turn) && Requested(p).None?
    case Failed(CycleRefused) => IsRefused(scope, p, turn)
    case Failed(why) => turn.currentAtSettlement && IsFatal(scope, p, turn, refused, why)
  }

  /** An iteration that goes on. */
  predicate GoesOn(scope: Scope, p: Coverage, turn: Turn, p2: Coverage) {
    && Proceeds(turn) && Requested(p).Some?
    && (|| (turn.answer.TooLarge? && !turn.resizeFails && p.page > 1 && p2 == p.(page := p.page / 2))
        || (Unavailable(turn.answer) && Gone(turn, p.target)
            && turn.tip.block.height <= MAX_HEIGHT && StartFitsColumn(scope.start)
            && FullCycle(scope.start, p, turn.tip.block, p2))
        || PageGoesOn(scope, p, turn, p2))
  }

  /** The page was recorded and the cursor stands below its oldest block, or the walk missed its floor and starts over. */
  predicate PageGoesOn(scope: Scope, p: Coverage, turn: Turn, p2: Coverage) {
    || (IsPart(scope, p, turn) && IsSubmitted(scope, p, turn) && !turn.commitFails
        && var oldest := turn.answer.blocks[|turn.answer.blocks| - 1];
           oldest.height > 0 && p2 == p.(next := Some(Block(oldest.previous, oldest.height - 1))))
    || (IsAstray(scope, p, turn) && StartFitsColumn(scope.start) && FullCycle(scope.start, p, p.target, p2))
  }

  /** Two certified blocks of one page are not proved at the same height. */
  ghost predicate OneJoin(scope: Scope, p: Coverage, turn: Turn) {
    turn.answer.Payloads? ==>
      forall f, g | EndsWith(scope, p, turn.answer.blocks, f) && EndsWith(scope, p, turn.answer.blocks, g) :: f == g
  }

  // ---------------------------------------------------------------- how a run begins

  /** The row is missing or complete, so that a run needs a new cycle. */
  predicate NeedsCycle(r: Record) {
    r.coverage.None? || r.coverage.value.status == Complete
  }

  /** The page size of a new cycle: a row never grows its own. */
  function NewPage(r: Record, configured: nat): nat {
    if r.coverage.Some? && r.coverage.value.page < configured then r.coverage.value.page else configured
  }

  /** A new cycle walks down to the covered tip if that is lower than the new one. */
  predicate Extends(r: Record, tip: Block) {
    CoveredOf(r).Some? && tip.height > CoveredOf(r).value.height
  }

  /** The new cycle's columns cannot hold it. */
  predicate CycleOverflows(r: Record, tip: Block, configured: nat) {
    || tip.height > MAX_HEIGHT
    || NewPage(r, configured) == 0 || NewPage(r, configured) > MAX_HEIGHT
    || (!Extends(r, tip) && !StartFitsColumn(r.start))
  }

  predicate AlreadyCovered(r: Record, tip: Block) {
    r.coverage.Some? && r.coverage.value.status == Complete && CoveredOf(r).Some? && CoveredOf(r).value.hash == tip.hash
  }

  /** The run may walk at all. */
  predicate MayWalk(r: Record, tip: Block, current: bool) {
    current && !Quarantine(r) && tip.height >= r.start
  }

  /** Exactly when a run ends so before anything was asked. */
  predicate StartCause(r: Record, tip: Block, configured: nat, current: bool, o: Outcome) {
    match o
    case SupersededScope(target) => target == tip && !current
    case QuarantinedScope(target) => target == tip && current && Quarantine(r)
    case Failed(TipBelowStart) => current && !Quarantine(r) && tip.height < r.start
    case UpToDate(target) => target == tip && MayWalk(r, tip, current) && AlreadyCovered(r, tip)
    case Failed(CycleRefused) =>
      MayWalk(r, tip, current) && NeedsCycle(r) && !AlreadyCovered(r, tip) && CycleOverflows(r, tip, configured)
    case _ => false
  }

  /**
    An unfinished cycle is taken up where it stands; a new one walks to the tip, down to the covered
    tip if that is lower, and down to the scope's start otherwise.
   */
  predicate Prepares(r: Record, tip: Block, configured: nat, progress: Coverage) {
    if !NeedsCycle(r) then
      progress == r.coverage.value.(status := Running, lastError := progress.lastError)
    else
      && !AlreadyCovered(r, tip) && !CycleOverflows(r, tip, configured)
      && progress.target == tip && progress.next == Some(tip) && progress.status == Running
      && progress.page == NewPage(r, configured)
      && if Extends(r, tip)
         then progress.floorHash == Some(CoveredOf(r).value.hash) && progress.floorHeight == Some(CoveredOf(r).value.height)
         else progress.floorHash.None? && progress.floorHeight == Below(r.start)
  }

  // ---------------------------------------------------------------- how a run goes on

  /** `asked` is the progress at each iteration, in order: the first as prepared, each next as the one before it left it. */
  predicate Trail(r: Record, scope: Scope, tip: Block, configured: nat, current: bool, script: nat -> Turn,
                  asked: seq<Coverage>)
  {
    && (asked != [] ==> MayWalk(r, tip, current) && Prepares(r, tip, configured, asked[0]))
    && GoesOnAlong(scope, script, asked)
  }

  predicate GoesOnAlong(scope: Scope, script: nat -> Turn, asked: seq<Coverage>) {
    forall i: nat | i + 1 < |asked| :: GoesOn(scope, asked[i], script(i), asked[i + 1])
  }

  /** A run's course and its end. */
  predicate RunCause(r: Record, scope: Scope, tip: Block, configured: nat, current: bool, script: nat -> Turn,
                     asked: seq<Coverage>, refused: bool, after: Record, o: Outcome)
  {
    && Trail(r, scope, tip, configured, current, script, asked)
    && if asked == [] then StartCause(r, tip, configured, current, o)
       else Cause(scope, asked[|asked| - 1], script(|asked| - 1), refused, after, o)
  }

  // ---------------------------------------------------------------- the course is determined

  /** What makes an iteration go on: a smaller page, another target, a recorded part, or a missed floor. */
  predicate MayGoOn(scope: Scope, p: Coverage, turn: Turn) {
    && Proceeds(turn) && Requested(p).Some?
    && (|| (turn.answer.TooLarge? && !turn.resizeFails && p.page > 1)
        || (Unavailable(turn.answer) && Gone(turn, p.target)
            && turn.tip.block.height <= MAX_HEIGHT && StartFitsColumn(scope.start))
        || (IsPart(scope, p, turn) && IsSubmitted(scope, p, turn) && !turn.commitFails)
        || (IsAstray(scope, p, turn) && StartFitsColumn(scope.start)))
  }

  /** An iteration that may go on does so, unless the part of the walk it got is contradicted; any other ends. */
  lemma EndsOrGoesOn(scope: Scope, p: Coverage, turn: Turn, refused: bool, after: Record, o: Outcome)
    requires Cause(scope, p, turn, refused, after, o) && MayGoOn(scope, p, turn)
    ensures o.QuarantinedScope? && IsPart(scope, p, turn) && Disagrees(after.facts, turn.answer.blocks)
  {
    hide Disagrees;
  }

  lemma GoingOnIsAllowed(scope: Scope, p: Coverage, turn: Turn, p2: Coverage)
    requires GoesOn(scope, p, turn, p2)
    ensures MayGoOn(scope, p, turn)
  {
    hide Usable, IsPart, IsAstray, IsSubmitted;
  }

  /** The turn and the record determine how an iteration ends. */
  lemma OneEnding(scope: Scope, p: Coverage, turn: Turn, refused: bool, after: Record, o: Outcome, o2: Outcome)
    requires Cause(scope, p, turn, refused, after, o) && Cause(scope, p, turn, refused, after, o2) && OneJoin(scope, p, turn)
    ensures o == o2
  {
    assert Usable(p, turn) ==> turn.answer.blocks != [];
    hide Disagrees, VerifyPage, HasConflict;
  }

  /** The turn determines how an iteration goes on. */
  lemma OneWayOn(scope: Scope, p: Coverage, turn: Turn, p2: Coverage, p3: Coverage)
    requires GoesOn(scope, p, turn, p2) && GoesOn(scope, p, turn, p3)
    ensures p2 == p3.(covered := p2.covered, rows := p2.rows, lastError := p2.lastError, finished := p2.finished)
  {
  }

  /** A run asks nothing exactly when it may not walk, has nothing to do, or cannot begin its cycle. */
  lemma AsksNothingIff(r: Record, scope: Scope, tip: Block, configured: nat, current: bool, script: nat -> Turn,
                       asked: seq<Coverage>, refused: bool, after: Record, o: Outcome)
    requires RunCause(r, scope, tip, configured, current, script, asked, refused, after, o)
    ensures asked == [] <==>
      || !MayWalk(r, tip, current)
      || (NeedsCycle(r) && (AlreadyCovered(r, tip) || CycleOverflows(r, tip, configured)))
    ensures !current ==> o == SupersededScope(tip)
    ensures current && Quarantine(r) ==> o == QuarantinedScope(tip)
  {
    hide Cause, GoesOnAlong;
  }

  // ---------------------------------------------------------------- a wedged row

  /** A cursor at or below its own floor. */
  predicate Stuck(r: Record) {
    && r.coverage.Some? && r.coverage.value.status != Complete && r.coverage.value.next.Some?
    && BlocksThroughFloor(r.coverage.value.next.value.height, r.coverage.value.floorHeight).None?
  }

  predicate StuckOutcome(o: Outcome) {
    o in {Failed(TipBelowStart), Failed(CursorBelowFloor), Crashed}
    || o.Interrupted? || o.SupersededScope? || o.QuarantinedScope?
  }

  predicate Unwedged(start: nat, script: nat -> Turn, asked: seq<Coverage>) {
    forall i: nat | i < |asked| :: !Wedges(start, asked[i], script(i))
  }

  lemma OneMoreUnwedged(start: nat, script: nat -> Turn, asked: seq<Coverage>, p: Coverage)
    ensures Unwedged(start, script, asked + [p]) <==> Unwedged(start, script, asked) && !Wedges(start, p, script(|asked|))
    ensures Unwedged(start, script, [])
  {
    hide Wedges;
    var more := asked + [p];
    assert more[|asked|] == p;
    assert forall i: nat | i < |asked| :: more[i] == asked[i];
  }

  /** An undisturbed run on a wedged row asks for nothing: it reports the quarantine or fails on the cursor. */
  lemma WedgedRunFails(r: Record, scope: Scope, tip: Block, configured: nat, current: bool, script: nat -> Turn,
                       asked: seq<Coverage>, refused: bool, after: Record, o: Outcome)
    requires RunCause(r, scope, tip, configured, current, script, asked, refused, after, o)
    requires Stuck(r) && current && tip.height >= r.start && Proceeds(script(0))
    ensures o == if Quarantine(r) then QuarantinedScope(tip) else Failed(CursorBelowFloor)
    ensures |asked| <= 1
  {
    if asked != [] {
      assert Requested(asked[0]).None?;
      StopsAtOnce(scope, script, asked);
    }
  }

  lemma StopsAtOnce(scope: Scope, script: nat -> Turn, asked: seq<Coverage>)
    requires asked != [] && Requested(asked[0]).None?
    ensures GoesOnAlong(scope, script, asked) ==> |asked| == 1
  {
    if |asked| > 1 {
      assert !GoesOn(scope, asked[0], script(0), asked[0 + 1]);
    }
  }

  // ---------------------------------------------------------------- a cooperative source

  /** One iteration goes well: nothing is interrupted, and the answer is a good page on the expected chain. */
  predicate Helpful(scope: Scope, p: Coverage, turn: Turn) {
    && !turn.shutdown && turn.current && turn.currentAtSettlement && !turn.commitFails
    && !turn.fetching.crash && !turn.recording.crash
    && Usable(p, turn)
    && (scope.expectedStart.Some? ==>
          forall f | f in turn.answer.blocks && f.height <= scope.start :: f.hash == scope.expectedStart.value)
  }

  predicate AllHelpful(scope: Scope, script: nat -> Turn, asked: seq<Coverage>) {
    forall i: nat | i < |asked| :: Helpful(scope, asked[i], script(i))
  }

  /** Every answer is a good page, and the row can hold its cycles. */
  predicate Cooperates(r: Record, scope: Scope, tip: Block, configured: nat, current: bool, script: nat -> Turn,
                       asked: seq<Coverage>)
  {
    && current && tip.height >= r.start && StartFitsColumn(scope.start)
    && (NeedsCycle(r) ==> !CycleOverflows(r, tip, configured))
    && AllHelpful(scope, script, asked)
  }

  /** The target a run walks to: that of an unfinished cycle, else the requested tip. */
  function StartTarget(r: Record, tip: Block): Block {
    if NeedsCycle(r) then tip else r.coverage.value.target
  }

  /** Good pages never replace the target. */
  lemma {:induction false} CooperativeKeepsTarget(r: Record, scope: Scope, tip: Block, configured: nat, current: bool,
                                                  script: nat -> Turn, asked: seq<Coverage>, i: nat)
    requires Trail(r, scope, tip, configured, current, script, asked) && AllHelpful(scope, script, asked) && i < |asked|
    ensures asked[i].target == StartTarget(r, tip)
  {
    if i > 0 {
      CooperativeKeepsTarget(r, scope, tip, configured, current, script, asked, i - 1);
      assert GoesOn(scope, asked[i - 1], script(i - 1), asked[i - 1 + 1]);
      assert Helpful(scope, asked[i - 1], script(i - 1));
    }
  }

  /** What a cooperative run may end in. */
  predicate Served(r: Record, tip: Block, after: Record, o: Outcome) {
    || o == Completed(StartTarget(r, tip))
    || o == UpToDate(tip)
    || (o.QuarantinedScope? && HasConflict(after))
  }

  /** With a cooperative source a run completes its target, has nothing to do, or finds a conflict. */
  lemma CooperativeRunCompletes(r: Record, scope: Scope, tip: Block, configured: nat, current: bool, script: nat -> Turn,
                                asked: seq<Coverage>, after: Record, o: Outcome)
    requires scope.linked && RunCause(r, scope, tip, configured, current, script, asked, false, after, o)
    requires Cooperates(r, scope, tip, configured, current, script, asked)
    requires o != Failed(CursorBelowFloor) && (o.QuarantinedScope? ==> HasConflict(after))
    ensures Served(r, tip, after, o)
  {
    hide Disagrees;
    if asked != [] {
      var n := |asked| - 1;
      assert Helpful(scope, asked[n], script(n));
      CooperativeKeepsTarget(r, scope, tip, configured, current, script, asked, n);
    }
  }

  lemma CooperativeIsUnwedged(scope: Scope, script: nat -> Turn, asked: seq<Coverage>)
    requires AllHelpful(scope, script, asked)
    ensures Unwedged(scope.start, script, asked)
  {
    forall i: nat | i < |asked| ensures !Wedges(scope.start, asked[i], script(i)) {
      assert Helpful(scope, asked[i], script(i));
    }
  }
}
