/** The loop of `run_history` and the methods one iteration is made of. */
module BackfillRun {
  import opened Wrappers
  import opened HistoryState
  import opened Certification
  import opened Agreement
  import opened HistorySteps
  import opened HistoryCursor
  import opened HistoryStore
  import opened Joins
  import opened StartHash
  import opened Backfill
  import opened BackfillCause

  // ---------------------------------------------------------------- what one iteration may claim

  /** The in-memory progress is the stored row, apart from the counters it does not steer by. */
  ghost predicate Mirrors(r: Record, progress: Coverage) {
    && r.coverage.Some? && progress.status == Running
    && r.coverage.value == progress.(rows := r.coverage.value.rows, lastError := r.coverage.value.lastError)
  }

  function Gap(row: Coverage): nat {
    if row.next.Some? then BlocksThroughFloor(row.next.value.height, row.floorHeight).Or(0) else 0
  }

  /** The lexicographic measure goes down. */
  ghost predicate Closer(p: Coverage, restarted: bool, p2: Coverage, restarted2: bool) {
    || (restarted2 && !restarted)
    || (restarted2 == restarted && Gap(p2) < Gap(p))
    || (restarted2 == restarted && Gap(p2) == Gap(p) && p2.page < p.page)
  }

  /** What a returned outcome says about the record. */
  ghost predicate Ended(before: Record, after: Record, o: Outcome) {
    && (o.Completed? ==>
          && !HasConflict(before)
          && after.coverage.Some? && after.coverage.value.status == Complete
          && after.coverage.value.target == o.target && after.coverage.value.covered == Some(o.target)
          && CertifiedAt(after, o.target))
    && (o.QuarantinedScope? ==>
          && after.coverage.Some? && after.coverage.value.status == Error
          && after.coverage.value.lastError == Some(HISTORY_CONFLICT))
    && (o.Deferred? ==>
          && after.coverage.Some? && after.coverage.value.status == Error
          && after.coverage.value.target == o.target && after.coverage.value.next.Some?)
    && (o.Interrupted? ==>
          after.coverage.Some? && after.coverage.value.status == Running && after.coverage.value.target == o.target)
    && (o.SupersededScope? && after.coverage.Some? ==> after.coverage.value.status in {Superseded, Complete})
    && (o.Deferred? || (o.Failed? && o.why in SETTLED) ==>
          && after.coverage.Some? && after.coverage.value.status == Error
          && after.coverage.value.lastError.Some? && after.coverage.value.lastError != Some(HISTORY_CONFLICT))
    && o != Failed(FloorUnreached) && o != Failed(FloorLost) && o != Failed(NotResumable) && o != Failed(UnexpectedStatus)
  }

  /** The page transaction is never refused for a reason the walk should have prevented. */
  predicate Untroubled(verdict: Option<PageResult>, linked: bool) {
    verdict.Some? ==>
      && (verdict.value.Committed() || verdict.value.Uncertified?)
      && (linked ==> !verdict.value.Uncertified?)
  }

  ghost predicate PageNeverGrows(p: Coverage, after: Record) {
    after.coverage.Some? && 0 < after.coverage.value.page <= p.page
  }

  /** The full contract of one iteration. */
  ghost predicate Turned(before: Record, after: Record, source: Source, turn: Turn,
                         p: Coverage, restarted: bool, p2: Coverage, restarted2: bool,
                         done: Option<Outcome>, verdict: Option<PageResult>)
  {
    && Good(after, source) && Evolves(before, after)
    && PageNeverGrows(p, after) && Untroubled(verdict, source.Linked())
    && (done.None? ==>
          && Mirrors(after, p2) && (restarted2 ==> p2.floorHash.None?)
          && after.certified == before.certified && verdict != Some(Uncertified)
          && (Closer(p, restarted, p2, restarted2) || (restarted2 && Replaces(turn))))
    && (done.Some? ==> Ended(before, after, done.value) && !done.value.UpToDate?)
    && (Above(before) ==>
          (Above(after) <==> !Wedges(before.start, p, turn)) && done != Some(Failed(CursorBelowFloor)))
  }

  lemma EvolvesReflexive(r: Record)
    ensures Evolves(r, r)
  {
  }

  /** What a kept record says about its row. */
  lemma GoodRow(r: Record, source: Source)
    requires Good(r, source)
    ensures r.coverage.Some? ==>
      var row := r.coverage.value;
      && Shape(row) && row.target.height <= MAX_HEIGHT && row.page <= MAX_HEIGHT
      && (row.status == Complete ==> row.covered == Some(row.target))
      && (row.status != Complete ==> row.next.value.height <= row.target.height)
  {
    hide Sound, ConflictsExact, FloorInv, StartInv, Trusted;
    if r.coverage.Some? && r.coverage.value.status != Complete {
      CursorBelowTarget(r, r.coverage.value);
    }
  }

  /** With committed links no block but the expected one is certified at the start. */
  lemma GoodStart(r: Record, source: Source)
    requires Good(r, source)
    ensures source.Linked() ==> StartsAt(r, source.startHash)
  {
  }

  lemma CursorBelowTarget(r: Record, row: Coverage)
    requires CursorLinked(r, row)
    ensures row.next.value.height <= row.target.height
  {
    var walk :| IsWalk(r.facts, walk, row.target, row.next.value);
    if walk != [] {
      LinkedDescends(walk, |walk| - 1);
    }
  }

  lemma EvolvesTransitive(a: Record, b: Record, c: Record)
    requires Evolves(a, b) && Evolves(b, c)
    ensures Evolves(a, c)
  {
  }

  // ---------------------------------------------------------------- steps

  /** Whatever other workers record between two store calls of this one. */
  method Interlude(store: Store, pause: Pause, ghost source: Source) returns (crashed: bool)
    requires Good(store.State(), source) && Trusted(source, pause.live)
    modifies store`facts, store`conflicts
    ensures Good(store.State(), source) && Evolves(old(store.State()), store.State())
    ensures crashed == pause.crash
  {
    for i := 0 to |pause.live|
      invariant Good(store.State(), source) && Evolves(old(store.State()), store.State())
    {
      ghost var before := store.State();
      assert Trusted(source, [pause.live[i]]) by {
        assert pause.live[i] in pause.live;
      }
      StepIsGood(before, Live(pause.live[i]), source);
      var _ := store.RecordLive(pause.live[i]);
      EvolvesTransitive(old(store.State()), before, store.State());
    }
    crashed := pause.crash;
  }

  const PAGE_FAILED := "history page failed"

  /** `settle_failure` on a running row. */
  method SettleFailure(store: Store, deferred: bool, why: Failure, current: bool, target: Block,
                       ghost source: Source) returns (o: Outcome)
    requires Good(store.State(), source)
    requires store.coverage.Some? && store.coverage.value.status == Running
    modifies store`coverage
    ensures Good(store.State(), source) && Evolves(old(store.State()), store.State())
    ensures store.coverage.Some? && store.coverage.value.status == if current then Error else Superseded
    ensures store.coverage.value == old(store.coverage).value.(status := store.coverage.value.status,
                                                               lastError := store.coverage.value.lastError)
    ensures current ==> store.coverage.value.lastError == Some(PAGE_FAILED)
    ensures o == if !current then SupersededScope(target) else if deferred then Deferred(target) else Failed(why)
  {
    hide Good, Evolves;
    assert PAGE_FAILED != HISTORY_CONFLICT by {
      assert PAGE_FAILED[0] != HISTORY_CONFLICT[0];
    }
    StepIsGood(store.State(), Fail(current, PAGE_FAILED), source);
    var status := store.Settle(current, PAGE_FAILED);
    match status.value
    case Superseded => o := SupersededScope(target);
    case Error => o := if deferred then Deferred(target) else Failed(why);
    case _ => o := Failed(UnexpectedStatus);
  }

  /** The row still walks to the same target from the same cursor. */
  predicate SameCycle(before: Record, after: Record) {
    && before.coverage.Some? && after.coverage.Some?
    && after.coverage.value == before.coverage.value.(status := after.coverage.value.status,
                                                      lastError := after.coverage.value.lastError)
  }

  /** What a settlement returns. */
  function SettledAs(turn: Turn, deferred: bool, why: Failure, target: Block): Outcome {
    if !turn.currentAtSettlement then SupersededScope(target) else if deferred then Deferred(target) else Failed(why)
  }

  /** The scope as the run found it. */
  ghost predicate Fixed(scope: Scope, r: Record, source: Source) {
    && scope.start == r.start && scope.proofs == r.certified && scope.linked == source.Linked()
    && (source.Linked() ==> scope.expectedStart == source.startHash)
  }

  /** The iteration ended as it had to. */
  ghost predicate Explained(scope: Scope, store: Store, p: Coverage, turn: Turn, verdict: Option<PageResult>, o: Outcome)
    reads store
  {
    Cause(scope, p, turn, verdict == Some(Uncertified), store.State(), o)
  }

  /** A part of the walk that was recorded is not contradicted by anything in the record. */
  ghost predicate Uncontradicted(scope: Scope, store: Store, p: Coverage, turn: Turn)
    reads store
  {
    IsPart(scope, p, turn) ==> !Disagrees(store.facts, turn.answer.blocks)
  }

  lemma SettledCause(scope: Scope, p: Coverage, turn: Turn, refused: bool, after: Record, deferred: bool, why: Failure)
    requires Proceeds(turn) && why in SETTLED
    requires if deferred then IsDeferred(p, turn) else IsFatal(scope, p, turn, refused, why)
    ensures Cause(scope, p, turn, refused, after, SettledAs(turn, deferred, why, p.target))
  {
    hide IsDeferred, IsFatal;
  }

  /** A failure settled on the row the iteration started from ends the iteration. */
  lemma SettlementEndsTurn(before: Record, after: Record, source: Source, turn: Turn, p: Coverage, restarted: bool,
                           deferred: bool, why: Failure, verdict: Option<PageResult>)
    requires Good(before, source) && Good(after, source) && Evolves(before, after) && Mirrors(before, p)
    requires SameCycle(before, after)
    requires after.coverage.value.status == if turn.currentAtSettlement then Error else Superseded
    requires turn.currentAtSettlement ==> after.coverage.value.lastError == Some(PAGE_FAILED)
    requires Untroubled(verdict, source.Linked()) && why in SETTLED
    requires !Unavailable(turn.answer) || !Gone(turn, p.target)
    ensures Turned(before, after, source, turn, p, restarted, p, restarted,
                   Some(SettledAs(turn, deferred, why, p.target)), verdict)
  {
    assert PAGE_FAILED[0] != HISTORY_CONFLICT[0];
    GoodRow(before, source);
    StartIsConstant(before, after);
    hide Good, Evolves;
  }

  method EndTurn(store: Store, progress: Coverage, ghost restarted: bool, turn: Turn, deferred: bool, why: Failure,
                 ghost verdict: Option<PageResult>, ghost source: Source) returns (o: Outcome)
    requires Good(store.State(), source) && Mirrors(store.State(), progress)
    requires Untroubled(verdict, source.Linked()) && why in SETTLED
    requires !Unavailable(turn.answer) || !Gone(turn, progress.target)
    modifies store`coverage
    ensures Turned(old(store.State()), store.State(), source, turn, progress, restarted, progress, restarted,
                   Some(o), verdict)
    ensures o == SettledAs(turn, deferred, why, progress.target)
    ensures SameCycle(old(store.State()), store.State())
  {
    hide Good, Evolves, Turned, Untroubled;
    ghost var before := store.State();
    o := SettleFailure(store, deferred, why, turn.currentAtSettlement, progress.target, source);
    SettlementEndsTurn(before, store.State(), source, turn, progress, restarted, deferred, why, verdict);
  }

  /** `mark_superseded`: the scope's instance is not the current one. */
  method RetireScope(store: Store, target: Block, ghost source: Source) returns (o: Outcome)
    requires Good(store.State(), source)
    modifies store`coverage
    ensures Good(store.State(), source) && Evolves(old(store.State()), store.State())
    ensures o == SupersededScope(target) && Ended(old(store.State()), store.State(), o)
    ensures old(store.coverage).Some? ==> store.coverage.Some? && store.coverage.value.page == old(store.coverage).value.page
    ensures Above(old(store.State())) ==> Above(store.State())
    ensures Stuck(old(store.State())) ==> Stuck(store.State())
  {
    hide Good, Evolves, Mirrors;
    StepIsGood(store.State(), Retire(NOT_ACTIVE), source);
    store.Supersede(NOT_ACTIVE);
    assert store.coverage.Some? ==> store.coverage.value.status == Superseded || store.coverage.value.status == Complete;
    o := SupersededScope(target);
  }

  lemma RetiredTurn(before: Record, after: Record, source: Source, turn: Turn, p: Coverage, restarted: bool)
    requires Good(after, source) && Evolves(before, after) && Mirrors(before, p) && p.page > 0
    requires Ended(before, after, SupersededScope(p.target)) && (Above(before) ==> Above(after)) && !Proceeds(turn)
    requires after.coverage.Some? && after.coverage.value.page == before.coverage.value.page
    ensures Turned(before, after, source, turn, p, restarted, p, restarted, Some(SupersededScope(p.target)), None)
  {
    hide Good, Evolves, Ended, Above;
  }

  /** A shutdown or a crash leaves the row as it is. */
  lemma StoppedTurn(before: Record, after: Record, source: Source, turn: Turn, p: Coverage, restarted: bool, o: Outcome)
    requires Good(after, source) && Evolves(before, after) && after.coverage == before.coverage && Mirrors(before, p)
    requires p.page > 0 && (o == Crashed || o == Interrupted(p.target)) && !Wedges(before.start, p, turn)
    ensures Turned(before, after, source, turn, p, restarted, p, restarted, Some(o), None)
  {
    StartIsConstant(before, after);
    hide Good, Evolves;
  }

  /** A smaller page at the same cursor is progress. */
  lemma ShrunkTurn(before: Record, after: Record, source: Source, turn: Turn, p: Coverage, restarted: bool)
    requires Good(after, source) && Evolves(before, after) && Mirrors(before, p) && p.page > 1
    requires after.coverage.Some? && (restarted ==> p.floorHash.None?) && !Unavailable(turn.answer)
    requires after.certified == before.certified
    requires after.coverage.value == before.coverage.value.(page := p.page / 2, lastError := after.coverage.value.lastError)
    ensures Turned(before, after, source, turn, p, restarted, p.(page := p.page / 2), restarted, None, None)
  {
    StartIsConstant(before, after);
    hide Good, Evolves;
  }

  /** `begin_full_cycle`. */
  method BeginFull(store: Store, target: Block, page: nat, ghost source: Source)
    returns (progress: Option<Coverage>)
    requires Good(store.State(), source)
    modifies store`coverage
    ensures Good(store.State(), source) && Evolves(old(store.State()), store.State())
    ensures progress.Some? ==>
      && store.coverage == progress && progress.value.status == Running && progress.value.next == Some(target)
      && progress.value.target == target && progress.value.floorHash.None?
      && progress.value.floorHeight == Below(store.start) && progress.value.page == page && page > 0
    ensures progress.None? ==> store.coverage == old(store.coverage)
    ensures progress.Some? <==> target.height <= MAX_HEIGHT && StartFitsColumn(store.start) && 0 < page <= MAX_HEIGHT
  {
    hide Good, Evolves;
    StepIsGood(store.State(), Begin(None, target, None, Below(store.start), page), source);
    var ok := store.BeginCycle(None, target, None, Below(store.start), page);
    progress := if ok then store.coverage else None;
  }

  /** A full cycle to the same or another target restarts the walk. */
  method Restart(store: Store, progress: Coverage, target: Block, restarted: bool, turn: Turn, ghost source: Source)
    returns (progress2: Coverage, restarted2: bool, done: Option<Outcome>)
    requires Good(store.State(), source) && Mirrors(store.State(), progress)
    requires Proceeds(turn) && Requested(progress).Some?
    requires if Unavailable(turn.answer) then Gone(turn, progress.target) && target == turn.tip.block
             else !restarted && target == progress.target
    modifies store`coverage
    ensures Turned(old(store.State()), store.State(), source, turn, progress, restarted, progress2, restarted2, done, None)
    ensures done.None? <==> target.height <= MAX_HEIGHT && StartFitsColumn(store.start)
    ensures done.None? ==>
      && restarted2 && progress2.target == target && progress2.next == Some(target) && store.coverage == Some(progress2)
      && progress2.floorHash.None? && progress2.floorHeight == Below(store.start) && progress2.page == progress.page
    ensures done.Some? ==> done == Some(Failed(CycleRefused)) && store.coverage == old(store.coverage)
    ensures done.Some? && target == progress.target ==> !StartFitsColumn(store.start)
  {
    GoodRow(store.State(), source);
    EvolvesReflexive(store.State());
    hide Good, Evolves;
    progress2, restarted2, done := progress, restarted, None;
    ghost var before := store.State();
    hide Turned, Mirrors;
    var next := BeginFull(store, target, progress.page, source);
    RestartedTurn(before, store.State(), source, turn, progress, restarted, target, next);
    if next.None? {
      done := Some(Failed(CycleRefused));
    } else {
      progress2, restarted2 := next.value, true;
    }
  }

  /** What a restart makes of the iteration: a full cycle, or a refusal that leaves the row. */
  lemma RestartedTurn(before: Record, after: Record, source: Source, turn: Turn, p: Coverage, restarted: bool, target: Block,
                      next: Option<Coverage>)
    requires Good(before, source) && Good(after, source) && Evolves(before, after) && Mirrors(before, p)
    requires Proceeds(turn) && Requested(p).Some? && after.certified == before.certified && p.page > 0
    requires if Unavailable(turn.answer) then Gone(turn, p.target) && target == turn.tip.block else !restarted && target == p.target
    requires next.Some? <==> target.height <= MAX_HEIGHT && StartFitsColumn(before.start)
    requires next.None? ==> after.coverage == before.coverage
    requires next.Some? ==>
      && after.coverage == next && next.value.status == Running && next.value.next == Some(target)
      && next.value.target == target && next.value.floorHash.None?
      && next.value.floorHeight == Below(before.start) && next.value.page == p.page
    ensures Turned(before, after, source, turn, p, restarted, next.Or(p), restarted || next.Some?,
                   if next.None? then Some(Failed(CycleRefused)) else None, None)
  {
    GoodRow(before, source);
    StartIsConstant(before, after);
    hide Good, Evolves;
  }

  lemma UnavailableEnds(scope: Scope, p: Coverage, turn: Turn, after: Record)
    requires Unavailable(turn.answer) && Proceeds(turn) && Requested(p).Some?
    ensures !Gone(turn, p.target) ==>
      Cause(scope, p, turn, false, after, SettledAs(turn, !turn.tip.TipBroken?, SourceFailure, p.target))
    ensures Gone(turn, p.target) && !(turn.tip.block.height <= MAX_HEIGHT && StartFitsColumn(scope.start)) ==>
      Cause(scope, p, turn, false, after, Failed(CycleRefused))
  {
    hide Usable;
    if !Gone(turn, p.target) {
      SettledCause(scope, p, turn, false, after, !turn.tip.TipBroken?, SourceFailure);
    }
  }

  /** The cursor was not found: adopt the current tip if the target itself is gone, else defer. */
  method HandleUnavailable(store: Store, progress: Coverage, restarted: bool, turn: Turn,
                           ghost scope: Scope, ghost source: Source)
    returns (progress2: Coverage, restarted2: bool, done: Option<Outcome>)
    requires Good(store.State(), source) && Mirrors(store.State(), progress) && Unavailable(turn.answer)
    requires Proceeds(turn) && Requested(progress).Some? && Fixed(scope, store.State(), source)
    modifies store`coverage
    ensures done.Some? ==> Explained(scope, store, progress, turn, None, done.value)
    ensures Turned(old(store.State()), store.State(), source, turn, progress, restarted,
                   progress2, restarted2, done, None)
    ensures done.None? <==>
      Gone(turn, progress.target) && turn.tip.block.height <= MAX_HEIGHT && StartFitsColumn(store.start)
    ensures done.None? ==>
      && restarted2 && progress2.target == turn.tip.block && progress2.next == Some(turn.tip.block)
      && progress2.floorHash.None? && progress2.floorHeight == Below(store.start) && progress2.page == progress.page
    ensures done.None? ==> (Stuck(store.State()) <==> turn.tip.block.height < store.start)
    ensures Gone(turn, progress.target) && done.Some? ==>
      done == Some(Failed(CycleRefused)) && store.coverage == old(store.coverage)
    ensures !Gone(turn, progress.target) ==> done.Some? && SameCycle(old(store.State()), store.State())
    ensures !Gone(turn, progress.target) && turn.currentAtSettlement ==>
      done.value == if turn.tip.TipBroken? then Failed(SourceFailure) else Deferred(progress.target)
    ensures !Gone(turn, progress.target) && !turn.currentAtSettlement ==> done.value == SupersededScope(progress.target)
  {
    GoodRow(store.State(), source);
    EvolvesReflexive(store.State());
    hide Good, Evolves;
    progress2, restarted2, done := progress, restarted, None;
    hide Turned, Cause;
    var replacement := None;
    if turn.tip.Tip? {
      var current := turn.tip.block;
      var availability := if current.hash == progress.target.hash then Some(true) else Availability(turn.probe);
      replacement := ReplacementTarget(current, progress.target, availability);
    }
    if replacement.Some? {
      progress2, restarted2, done := Restart(store, progress, replacement.value, restarted, turn, source);
      UnavailableEnds(scope, progress, turn, store.State());
      return;
    }
    // A tip that cannot be read for good is fatal; otherwise the exact target is kept for a retry.
    var deferred := !turn.tip.TipBroken?;
    var o := EndTurn(store, progress, restarted, turn, deferred, SourceFailure, None, source);
    UnavailableEnds(scope, progress, turn, store.State());
    done := Some(o);
  }

  // ---------------------------------------------------------------- a found page

  method PositionOf(blocks: seq<Fact>, hash: Hash) returns (index: nat)
    requires exists i :: 0 <= i < |blocks| && blocks[i].hash == hash
    ensures index < |blocks| && blocks[index].hash == hash
    ensures forall i | 0 <= i < index :: blocks[i].hash != hash
  {
    index := 0;
    while blocks[index].hash != hash
      invariant 0 <= index < |blocks| && forall i | 0 <= i < index :: blocks[i].hash != hash
      invariant exists i :: index <= i < |blocks| && blocks[i].hash == hash
      decreases |blocks| - index
    {
      index := index + 1;
    }
  }

  lemma JoinStepFits(r: Record, progress: Coverage, blocks: seq<Fact>, index: nat, source: Source)
    requires Good(r, source) && Mirrors(r, progress) && progress.next.Some? && progress.next.value.height <= MAX_HEIGHT
    requires Continues(blocks, progress.next.value) && index < |blocks| && blocks[index].hash in r.certified
    requires Trusted(source, blocks)
    ensures StepFits(r, AdoptFloor(progress.next.value, blocks[index]), source)
    ensures blocks[index].height <= progress.next.value.height
  {
    LinkedDescends(blocks, index);
    if source.Linked() {
      LinkedJoinIsKnown(r, progress.next.value, blocks, index, source.world);
    }
    if source.Honest() {
      assert blocks[index] in blocks;
      HonestJoinIsGood(r, progress.next.value, blocks[index], source.world);
    }
    hide StoreInv, CursorInv, FloorInv, StartInv, Agrees, Links, Continues, FloorGood, FloorFromJoin;
  }

  lemma AdoptedRow(r: Record, progress: Coverage, header: Fact)
    requires Mirrors(r, progress) && Shape(r.coverage.value) && progress.next.Some? && header.height <= MAX_HEIGHT
    ensures var floorHash, floorHeight := JoinFloor(header), Below(header.height);
      var s := SetFloor(r, progress.next.value.hash, floorHash, floorHeight);
      && s.Some? && Mirrors(s.value, progress.(floorHash := floorHash, floorHeight := floorHeight))
      && Apply(r, AdoptFloor(progress.next.value, header)) == s.value
  {
  }

  method JoinCertified(store: Store, progress: Coverage, blocks: seq<Fact>, certified: Block,
                       ghost source: Source)
    returns (progress2: Coverage, kept: seq<Fact>, ok: bool)
    requires Good(store.State(), source) && Mirrors(store.State(), progress)
    requires progress.next.Some? && progress.next.value.height <= MAX_HEIGHT && Continues(blocks, progress.next.value)
    requires certified.hash in store.certified && exists i :: 0 <= i < |blocks| && blocks[i].hash == certified.hash
    requires Trusted(source, blocks)
    modifies store`coverage
    ensures ok && Good(store.State(), source) && Evolves(old(store.State()), store.State())
    ensures Mirrors(store.State(), progress2)
    ensures progress2 == progress.(floorHash := progress2.floorHash, floorHeight := progress2.floorHeight)
    ensures kept != [] && kept <= blocks && kept[|kept| - 1].hash == certified.hash
    ensures progress2.floorHeight == Below(kept[|kept| - 1].height)
    ensures progress2.floorHash == JoinFloor(kept[|kept| - 1])
    ensures BlocksThroughFloor(progress.next.value.height, progress2.floorHeight).Some?
  {
    GoodRow(store.State(), source);
    var index := PositionOf(blocks, certified.hash);
    var header, cursor := blocks[index], progress.next.value;
    progress2 := progress.(floorHeight := Below(header.height), floorHash := JoinFloor(header));
    hide Good, Evolves, StepFits, Continues, Trusted;
    JoinStepFits(store.State(), progress, blocks, index, source);
    StepIsGood(store.State(), AdoptFloor(cursor, header), source);
    AdoptedRow(store.State(), progress, header);
    hide Mirrors, Shape, HistorySteps.SetFloor;
    ok := store.SetFloor(cursor.hash, progress2.floorHash, progress2.floorHeight);
    kept := blocks[..index + 1];
  }

  lemma PrefixContinues(blocks: seq<Fact>, kept: seq<Fact>, cursor: Block)
    requires Continues(blocks, cursor) && kept != [] && kept <= blocks
    ensures Continues(kept, cursor)
    ensures forall f | f in kept :: f in blocks && f.height <= cursor.height
  {
    forall f | f in kept ensures f in blocks && f.height <= cursor.height {
      var i :| 0 <= i < |kept| && kept[i] == f;
      assert blocks[i] == f;
      LinkedDescends(blocks, i);
    }
  }

  /** A page the walk submits meets the transaction's conditions; only a floor that nothing proves may fail the proof. */
  lemma PageIsUntroubled(r: Record, page: seq<Fact>, cursor: Block, next: Option<Block>, linked: bool)
    requires StoreInv(r) && CursorInv(r) && AtCursor(r, cursor)
    requires page != [] && HeightsFit(page) && (next.Some? ==> next.value.height <= MAX_HEIGHT)
    requires Continues(Reverse(page), cursor)
    requires linked && next.None? ==> EndsCycle(r, r.coverage.value, page[0])
    ensures Untroubled(Some(RecordPage(r, page, cursor, next).1), linked)
    ensures RecordPage(r, page, cursor, next).1.Uncertified? ==> RecordPage(r, page, cursor, next).0 == r
  {
    hide Sound, ConflictsExact, CursorLinked, FloorGood, PageConflict, Accepts;
    CommittedPage(r, page, cursor, next);
    PageIsNeverMalformed(r, page, cursor, next);
    if linked && next.None? {
      LastPageIsAccepted(r, page, cursor);
    }
  }

  /** The verdict on a submitted page, read off the record it leaves. */
  lemma SubmittedVerdict(r: Record, kept: seq<Fact>, cursor: Block, next: Option<Block>)
    requires StoreInv(r) && AtCursor(r, cursor) && kept != []
    requires HeightsFit(Reverse(kept)) && (next.Some? ==> next.value.height <= MAX_HEIGHT)
    ensures var (s, result) := RecordPage(r, Reverse(kept), cursor, next);
      && (next.Some? ==> result.Committed())
      && (result.Committed() ==>
            && (result.Quarantined? <==> Disagrees(s.facts, kept) || (next.None? && HasConflict(s)))
            && (next.None? ==> (result.Quarantined? <==> HasConflict(s))))
      && (next.Some? || !result.Recorded? ==> s.certified == r.certified)
  {
    var page := Reverse(kept);
    var s, result := RecordPage(r, page, cursor, next).0, RecordPage(r, page, cursor, next).1;
    PageVerdict(r, page, cursor, next);
    CommittedPage(r, page, cursor, next);
    PageKeepsStoreInv(r, page, cursor, next);
    NoConflictMeansSingle(s);
    InsertAllGrows(r, page);
    hide RecordPage, Reverse, InsertAll, ConflictsExact, Sound, Certify, Accepts, HasConflict;
    if result.Committed() {
      forall f ensures f in s.facts <==> f in r.facts + page {
      }
      assert Disagrees(s.facts, kept) <==> Disagrees(r.facts + page, page);
      assert Single(s.facts) <==> Single(r.facts + page);
      assert Disagrees(s.facts, kept) ==> !Single(s.facts);
    }
  }

  lemma CommittedRow(r: Record, page: seq<Fact>, cursor: Block, next: Option<Block>)
    requires StoreInv(r) && CursorInv(r) && Fits(r, Page(page, cursor, next))
    ensures var (s, result) := RecordPage(r, page, cursor, next);
      && (result.Committed() ==>
            && AtCursor(r, cursor) && s.coverage.Some?
            && s.coverage.value == Advanced(r.coverage.value, cursor, next, result.Quarantined?, result.inserted))
      && (result.Recorded? && next.None? ==> !HasConflict(r) && CertifiedAt(s, r.coverage.value.target))
  {
    CommittedPage(r, page, cursor, next);
    PageKeepsCursor(r, page, cursor, next);
    InsertAllGrows(r, page);
  }

  /** The stored row agrees with the progress on everything the page's end depends on. */
  lemma MirroredPageFits(r: Record, progress: Coverage, page: seq<Fact>, next: Option<Block>, start: Option<Hash>)
    requires Mirrors(r, progress) && page != []
    requires next.None? ==> ReachesFloor(r, progress, page[0])
    requires next.Some? ==> BlocksThroughFloor(next.value.height, progress.floorHeight).Some?
    requires StartHashFits(start, progress.floorHash, next.None?, page[0].hash)
    ensures PageFits(r, page, next, start)
  {
  }

  /** A page of fetched blocks, oldest first. */
  lemma RecordedPage(kept: seq<Fact>, source: Source)
    requires kept != []
    ensures var page := Reverse(kept);
      && page != [] && page[0] == kept[|kept| - 1] && Reverse(page) == kept
      && (forall f | f in page :: f in kept) && (Trusted(source, kept) ==> Trusted(source, page))
  {
    ReverseTwice(kept);
  }

  lemma PageStepFits(r: Record, progress: Coverage, page: seq<Fact>, next: Option<Block>, source: Source)
    requires Mirrors(r, progress) && progress.next.Some? && page != []
    requires Continues(Reverse(page), progress.next.value) && NextBelow(page[0], next)
    requires next.None? ==> ReachesFloor(r, progress, page[0])
    requires next.Some? ==> BlocksThroughFloor(next.value.height, progress.floorHeight).Some?
    requires Trusted(source, page)
    requires source.Linked() ==> StartHashFits(source.startHash, progress.floorHash, next.None?, page[0].hash)
    ensures StepFits(r, Page(page, progress.next.value, next), source)
  {
    if source.Linked() {
      MirroredPageFits(r, progress, page, next, source.startHash);
    }
    hide Mirrors, PageFits, ReachesFloor, StartHashFits, Continues, Reverse, Agrees, Links;
  }

  lemma SubmittedPageEnds(r: Record, progress: Coverage, page: seq<Fact>, cursor: Block, source: Source)
    requires Good(r, source) && source.Linked() && Mirrors(r, progress) && progress.next == Some(cursor)
    requires page != [] && Continues(Reverse(page), cursor) && Links(source.world, page)
    requires ReachesFloor(r, progress, page[0])
    ensures EndsCycle(r, r.coverage.value, page[0])
  {
    hide Continues, Reverse, Links;
    KnownFloorEnds(r, page, cursor, source.world);
  }

  /** Submit a page and read the verdict of the transaction. */
  method SubmitPage(store: Store, progress: Coverage, kept: seq<Fact>, next: Option<Block>,
                    ghost source: Source)
    returns (result: PageResult)
    requires Good(store.State(), source) && Mirrors(store.State(), progress) && progress.next.Some?
    requires Continues(kept, progress.next.value) && forall f | f in kept :: f.height <= MAX_HEIGHT
    requires next.Some? ==> next.value.height <= MAX_HEIGHT
    requires NextBelow(kept[|kept| - 1], next)
    requires next.None? ==> ReachesFloor(store.State(), progress, kept[|kept| - 1])
    requires next.Some? ==> BlocksThroughFloor(next.value.height, progress.floorHeight).Some?
    requires Trusted(source, kept)
    requires source.Linked() ==> StartHashFits(source.startHash, progress.floorHash, next.None?, kept[|kept| - 1].hash)
    modifies store
    ensures Good(store.State(), source) && Evolves(old(store.State()), store.State())
    ensures result.Committed() ==>
      (result.Quarantined? <==> Disagrees(store.facts, kept) || (next.None? && HasConflict(store.State())))
    ensures result.Committed() && next.None? ==> (result.Quarantined? <==> HasConflict(store.State()))
    ensures next.Some? || !result.Recorded? ==> store.certified == old(store.certified)
    ensures next.Some? ==> result.Committed()
    ensures Untroubled(Some(result), source.Linked())
    ensures result.Uncertified? ==> store.State() == old(store.State())
    ensures result.Committed() ==>
      && store.coverage.Some?
      && store.coverage.value == Advanced(old(store.coverage).value, progress.next.value, next, result.Quarantined?, result.inserted)
    ensures result.Recorded? && next.None? ==> !HasConflict(old(store.State())) && CertifiedAt(store.State(), progress.target)
  {
    ghost var r := store.State();
    hide Sound, ConflictsExact, CursorLinked, FloorInv, StartInv;
    assert kept != [];
    var page := Reverse(kept);
    var cursor := progress.next.value;
    RecordedPage(kept, source);
    PageStepFits(r, progress, page, next, source);
    StepIsGood(r, Page(page, cursor, next), source);
    if source.Linked() && next.None? {
      SubmittedPageEnds(r, progress, page, cursor, source);
    }
    PageIsUntroubled(r, page, cursor, next, source.Linked());
    CommittedRow(r, page, cursor, next);
    SubmittedVerdict(r, kept, cursor, next);
    hide Good, Evolves, Untroubled, CertifiedAt, HasConflict, HistorySteps.RecordPage, Continues, ReachesFloor, StepFits,
      StartHashFits, Trusted;
    result := store.RecordPage(page, cursor, next);
  }

  /** A page that was verified, truncated at a join, and checked against the floor. */
  ghost predicate Checked(r: Record, progress: Coverage, kept: seq<Fact>, joined: bool, remaining: nat) {
    && progress.next.Some? && progress.next.value.height <= MAX_HEIGHT
    && Continues(kept, progress.next.value) && |kept| <= remaining
    && (forall f | f in kept :: f.height <= progress.next.value.height)
    && BlocksThroughFloor(progress.next.value.height, progress.floorHeight).Some?
    && (joined ==>
          && kept[|kept| - 1].hash in r.certified
          && progress.floorHash == JoinFloor(kept[|kept| - 1]) && progress.floorHeight == Below(kept[|kept| - 1].height))
    && (!joined ==>
          && kept[|kept| - 1].hash !in r.certified
          && BlocksThroughFloor(progress.next.value.height, progress.floorHeight) == Some(remaining))
  }

  lemma CheckedPageMeetsFloor(r: Record, progress: Coverage, kept: seq<Fact>, joined: bool, remaining: nat)
    requires Checked(r, progress, kept, joined, remaining)
    ensures var oldest := kept[|kept| - 1];
      && ((joined || |kept| == remaining) && (progress.floorHash.Some? ==> oldest.previous == progress.floorHash.value)
          ==> ReachesFloor(r, progress, oldest))
      && (!joined && |kept| < remaining ==>
            && oldest.height > 0
            && BlocksThroughFloor(oldest.height - 1, progress.floorHeight) == Some(remaining - |kept|))
  {
    LinkedDescends(kept, |kept| - 1);
  }

  /** What other workers recorded before the last part of an iteration changes none of its claims. */
  lemma TurnedAfterPause(before: Record, mid: Record, after: Record, source: Source, turn: Turn,
                         p: Coverage, restarted: bool, p2: Coverage, restarted2: bool,
                         done: Option<Outcome>, verdict: Option<PageResult>)
    requires Evolves(before, mid) && mid.coverage == before.coverage && mid.certified == before.certified
    requires Turned(mid, after, source, turn, p, restarted, p2, restarted2, done, verdict)
    ensures Turned(before, after, source, turn, p, restarted, p2, restarted2, done, verdict)
  {
    EvolvesTransitive(before, mid, after);
    StartIsConstant(before, mid);
    if done.Some? {
      EndedEarlier(before, mid, after, done.value);
    }
    hide Good, Evolves, Ended, Wedges, Closer, Mirrors, Untroubled;
  }

  /** How a page about to be submitted ends the iteration. */
  predicate CommitCause(target: Block, turn: Turn, kept: seq<Fact>, completes: bool, verdict: Option<PageResult>,
                        after: Record, o: Outcome)
  {
    if turn.recording.crash then o == Crashed
    else if turn.commitFails || (completes && verdict == Some(Uncertified)) then
      o == SettledAs(turn, false, PageFailure, target)
    else
      || (o == Completed(target) && completes && !HasConflict(after))
      || (o == QuarantinedScope(target) && if completes then HasConflict(after) else Disagrees(after.facts, kept))
  }

  /** How it goes on instead. */
  predicate CommitGoesOn(turn: Turn, kept: seq<Fact>, completes: bool, after: Record, p: Coverage, p2: Coverage) {
    && !turn.recording.crash && !turn.commitFails && !completes && !Disagrees(after.facts, kept) && kept != []
    && var oldest := kept[|kept| - 1];
       oldest.height > 0 && p2 == p.(next := Some(Block(oldest.previous, oldest.height - 1)))
  }

  /** Submit, and turn the verdict into the end of the iteration. */
  method CommitPage(store: Store, progress: Coverage, restarted: bool, turn: Turn, kept: seq<Fact>, completes: bool,
                    ghost source: Source)
    returns (progress2: Coverage, done: Option<Outcome>, verdict: Option<PageResult>)
    requires Good(store.State(), source) && Mirrors(store.State(), progress)
    requires progress.next.Some? && progress.next.value.height <= MAX_HEIGHT && Continues(kept, progress.next.value)
    requires forall f | f in kept :: f.height <= progress.next.value.height
    requires completes ==> ReachesFloor(store.State(), progress, kept[|kept| - 1])
    requires !completes ==> var oldest := kept[|kept| - 1];
      oldest.height > 0 && BlocksThroughFloor(oldest.height - 1, progress.floorHeight).Some?
    requires restarted && !completes ==> progress.floorHash.None?
    requires Trusted(source, kept) && !Unavailable(turn.answer) && !turn.recording.crash && !turn.commitFails
    requires source.Linked() ==> StartHashFits(source.startHash, progress.floorHash, completes, kept[|kept| - 1].hash)
    modifies store
    ensures done.Some? ==> CommitCause(progress.target, turn, kept, completes, verdict, store.State(), done.value)
    ensures done.None? ==> CommitGoesOn(turn, kept, completes, store.State(), progress, progress2)
    ensures Turned(old(store.State()), store.State(), source, turn, progress, restarted,
                   progress2, restarted, done, verdict)
  {
    GoodRow(store.State(), source);
    EvolvesReflexive(store.State());
    hide Good, Evolves;
    progress2, done, verdict := progress, None, None;
    var oldest := kept[|kept| - 1];
    LinkedDescends(kept, |kept| - 1);
    hide Turned, Continues, ReachesFloor, Trusted, StartHashFits, HasConflict, Disagrees, CertifiedAt;
    ghost var before := store.State();
    var next := if completes then None else Some(Block(oldest.previous, oldest.height - 1));
    var result := SubmitPage(store, progress, kept, next, source);
    verdict := Some(result);
    if result.Committed() {
      CommittedTurn(before, store.State(), source, turn, progress, restarted, next, result);
      if result.Quarantined? {
        done := Some(QuarantinedScope(progress.target));
      } else if completes {
        done := Some(Completed(progress.target));
      } else {
        progress2 := progress.(next := next);
      }
    } else {
      var o := EndTurn(store, progress, restarted, turn, false, PageFailure, verdict, source);
      done := Some(o);
    }
  }

  /** What a committed page makes of the iteration. */
  lemma CommittedTurn(before: Record, after: Record, source: Source, turn: Turn, p: Coverage, restarted: bool,
                      next: Option<Block>, result: PageResult)
    requires Good(after, source) && Evolves(before, after) && Mirrors(before, p) && p.next.Some?
    requires Shape(before.coverage.value) && !Unavailable(turn.answer)
    requires next.Some? ==> after.certified == before.certified
    requires result.Committed() && after.coverage.Some?
    requires after.coverage.value == Advanced(before.coverage.value, p.next.value, next, result.Quarantined?, result.inserted)
    requires result.Recorded? && next.None? ==> !HasConflict(before) && CertifiedAt(after, p.target)
    requires next.Some? ==>
      && BlocksThroughFloor(next.value.height, p.floorHeight).Some? && next.value.height < p.next.value.height
      && (restarted ==> p.floorHash.None?)
    ensures Turned(before, after, source, turn, p, restarted,
                   if result.Recorded? && next.Some? then p.(next := next) else p, restarted,
                   if result.Quarantined? then Some(QuarantinedScope(p.target))
                   else if next.None? then Some(Completed(p.target)) else None,
                   Some(result))
  {
    StartIsConstant(before, after);
    hide Good, Evolves, HasConflict, CertifiedAt;
  }

  method CommitAfterPause(store: Store, progress: Coverage, restarted: bool, turn: Turn, kept: seq<Fact>, joined: bool,
                          remaining: nat, ghost source: Source)
    returns (progress2: Coverage, done: Option<Outcome>, verdict: Option<PageResult>)
    requires Good(store.State(), source) && Mirrors(store.State(), progress)
    requires Checked(store.State(), progress, kept, joined, remaining)
    requires (joined || |kept| == remaining) && progress.floorHash.Some? ==>
      kept[|kept| - 1].previous == progress.floorHash.value
    requires restarted && !joined ==> progress.floorHash.None?
    requires Trusted(source, kept) && Trusted(source, turn.recording.live) && !Unavailable(turn.answer)
    requires source.Linked() ==>
      StartHashFits(source.startHash, progress.floorHash, joined || |kept| == remaining, kept[|kept| - 1].hash)
    modifies store
    ensures done.Some? ==>
      CommitCause(progress.target, turn, kept, joined || |kept| == remaining, verdict, store.State(), done.value)
    ensures done.None? ==> CommitGoesOn(turn, kept, joined || |kept| == remaining, store.State(), progress, progress2)
    ensures Turned(old(store.State()), store.State(), source, turn, progress, restarted,
                   progress2, restarted, done, verdict)
  {
    GoodRow(store.State(), source);
    EvolvesReflexive(store.State());
    hide Good, Evolves;
    progress2, done, verdict := progress, None, None;
    var crashed := Interlude(store, turn.recording, source);
    ghost var mid := store.State();
    if crashed {
      done := Some(Crashed);
    } else if turn.commitFails {
      var o := EndTurn(store, progress, restarted, turn, false, PageFailure, None, source);
      done := Some(o);
    } else {
      CheckedPageMeetsFloor(mid, progress, kept, joined, remaining);
      progress2, done, verdict :=
        CommitPage(store, progress, restarted, turn, kept, joined || |kept| == remaining, source);
    }
    TurnedAfterPause(old(store.State()), mid, store.State(), source, turn, progress, restarted,
                     progress2, restarted, done, verdict);
  }

  /** The cycle's last block does not stand on its floor: the covered tip is not an ancestor. */
  predicate Strays(progress: Coverage, kept: seq<Fact>, joined: bool, remaining: nat)
    requires kept != []
  {
    && (joined || |kept| == remaining) && progress.floorHash.Some?
    && kept[|kept| - 1].previous != progress.floorHash.value
  }

  /** How a verified page, cut at a join if there was one, ends the iteration. */
  predicate RecordCause(scope: Scope, p: Coverage, turn: Turn, kept: seq<Fact>, joined: bool, remaining: nat,
                        verdict: Option<PageResult>, after: Record, o: Outcome)
    requires kept != []
  {
    var oldest, completes := kept[|kept| - 1], joined || |kept| == remaining;
    if !StartHashFits(scope.expectedStart, p.floorHash, completes, oldest.hash) then
      o == SettledAs(turn, false, WrongStartHash, p.target) && (scope.linked ==> oldest.height <= scope.start)
    else if Strays(p, kept, joined, remaining) then o == Failed(CycleRefused) && !StartFitsColumn(scope.start)
    else CommitCause(p.target, turn, kept, completes, verdict, after, o)
  }

  /** How it goes on instead. */
  predicate RecordGoesOn(scope: Scope, p: Coverage, turn: Turn, kept: seq<Fact>, joined: bool, remaining: nat,
                         after: Record, p2: Coverage)
    requires kept != []
  {
    && StartHashFits(scope.expectedStart, p.floorHash, joined || |kept| == remaining, kept[|kept| - 1].hash)
    && if Strays(p, kept, joined, remaining) then StartFitsColumn(scope.start) && FullCycle(scope.start, p, p.target, p2)
       else CommitGoesOn(turn, kept, joined || |kept| == remaining, after, p, p2)
  }

  lemma GoodFloor(r: Record, source: Source)
    requires Good(r, source)
    ensures Sound(r) && (source.Linked() ==> FloorKnown(r, source.world))
  {
  }

  lemma PageEndsKnownFloor(r: Record, kept: seq<Fact>, cursor: Block, source: Source)
    requires AtCursor(r, cursor) && Shape(r.coverage.value) && FloorKnown(r, source.world) && Sound(r)
    requires kept != [] && Continues(kept, cursor) && Links(source.world, kept)
    requires ReachesFloor(r, r.coverage.value, kept[|kept| - 1]) && r.coverage.value.floorHash.None?
    requires kept[|kept| - 1].hash !in r.certified
    ensures kept[|kept| - 1].height == r.start
  {
    ReverseTwice(kept);
    var page := Reverse(kept);
    hide Reverse, Continues, FloorKnown, Sound, ReachesFloor, AtCursor, Shape;
    assert Links(source.world, page);
    KnownFloorEnds(r, page, cursor, source.world);
  }

  /** A cycle without a floor hash ends at the scope's start, or at a joined block that claims height zero. */
  lemma FullCycleEndsAtStart(r: Record, progress: Coverage, kept: seq<Fact>, joined: bool, remaining: nat, source: Source)
    requires Good(r, source) && source.Linked() && Mirrors(r, progress) && Links(source.world, kept)
    requires Checked(r, progress, kept, joined, remaining) && (joined || |kept| == remaining) && progress.floorHash.None?
    ensures kept[|kept| - 1].height <= r.start
  {
    if !joined {
      CheckedPageMeetsFloor(r, progress, kept, joined, remaining);
      GoodRow(r, source);
      GoodFloor(r, source);
      hide Good;
      PageEndsKnownFloor(r, kept, progress.next.value, source);
    }
  }

  /** From a verified, possibly truncated page to the end of the iteration. */
  method RecordVerified(store: Store, progress: Coverage, restarted: bool, turn: Turn, kept: seq<Fact>, joined: bool,
                        remaining: nat, expectedStart: Option<Hash>, ghost scope: Scope, ghost source: Source)
    returns (progress2: Coverage, restarted2: bool, done: Option<Outcome>, verdict: Option<PageResult>)
    requires Good(store.State(), source) && Mirrors(store.State(), progress)
    requires Checked(store.State(), progress, kept, joined, remaining)
    requires restarted && !joined ==> progress.floorHash.None?
    requires Trusted(source, kept) && Trusted(source, turn.recording.live) && !Unavailable(turn.answer)
    requires Fixed(scope, store.State(), source) && expectedStart == scope.expectedStart
    requires Proceeds(turn) && Requested(progress).Some?
    modifies store
    ensures done.Some? ==> RecordCause(scope, progress, turn, kept, joined, remaining, verdict, store.State(), done.value)
    ensures done.None? ==> RecordGoesOn(scope, progress, turn, kept, joined, remaining, store.State(), progress2)
    ensures Turned(old(store.State()), store.State(), source, turn, progress, restarted,
                   progress2, restarted2, done, verdict)
    ensures joined ==> done.Some?
    ensures done.None? ==> restarted2 == (restarted || Strays(progress, kept, joined, remaining))
  {
    GoodRow(store.State(), source);
    EvolvesReflexive(store.State());
    hide Good, Evolves, Turned;
    progress2, restarted2, done, verdict := progress, restarted, None, None;
    var oldest := kept[|kept| - 1];
    var completes := joined || |kept| == remaining;
    if !StartHashFits(expectedStart, progress.floorHash, completes, oldest.hash) {
      if source.Linked() {
        FullCycleEndsAtStart(store.State(), progress, kept, joined, remaining, source);
      }
      var o := EndTurn(store, progress, restarted, turn, false, WrongStartHash, None, source);
      done := Some(o);
      return;
    }
    if completes && progress.floorHash.Some? && oldest.previous != progress.floorHash.value {
      if restarted {
        assert false;  // "still failed to reach its floor": no floor survives a restart but a join's own
      }
      progress2, restarted2, done := Restart(store, progress, progress.target, restarted, turn, source);
      return;
    }
    progress2, done, verdict := CommitAfterPause(store, progress, restarted, turn, kept, joined, remaining, source);
  }

  // ---------------------------------------------------------------- one iteration

  /** The highest certified block of a page. */
  method CertifiedBlock(store: Store, blocks: seq<Fact>) returns (certified: Option<Block>)
    ensures certified.None? ==> forall f | f in blocks :: f.hash !in store.certified
    ensures certified.Some? ==>
      && certified.value.hash in store.certified
      && (exists i :: 0 <= i < |blocks| && blocks[i].hash == certified.value.hash)
      && certified.value.height == store.certified[certified.value.hash].height
      && forall f | f in blocks && f.hash in store.certified :: store.certified[f.hash].height <= certified.value.height
  {
    var hashes := seq(|blocks|, i requires 0 <= i < |blocks| => blocks[i].hash);
    certified := store.CertifiedFloor(hashes);
    forall f | f in blocks ensures f.hash in hashes {
      var i :| 0 <= i < |blocks| && blocks[i] == f;
      assert hashes[i] == f.hash;
    }
    if certified.Some? {
      var i :| 0 <= i < |hashes| && hashes[i] == certified.value.hash;
      assert blocks[i].hash == certified.value.hash;
    }
  }

  /** `kept` is the answer, or its part down to a join; `cut` is the progress with that join's floor. */
  ghost predicate IsCut(scope: Scope, p: Coverage, turn: Turn, cut: Coverage, kept: seq<Fact>, joined: bool, remaining: nat) {
    && Answered(p, turn) && kept != [] && kept <= turn.answer.blocks && cut.target == p.target && cut.next == p.next
    && (joined <==> Meets(scope.proofs, turn.answer.blocks))
    && if joined then Highest(scope.proofs, turn.answer.blocks, kept[|kept| - 1]) && cut.floorHash == JoinFloor(kept[|kept| - 1])
       else kept == turn.answer.blocks && cut == p && BlocksThroughFloor(p.next.value.height, p.floorHeight) == Some(remaining)
  }

  lemma WholeIsCut(scope: Scope, p: Coverage, turn: Turn, remaining: nat)
    requires Answered(p, turn) && BlocksThroughFloor(p.next.value.height, p.floorHeight) == Some(remaining)
    requires forall f | f in turn.answer.blocks :: f.hash !in scope.proofs
    ensures IsCut(scope, p, turn, p, turn.answer.blocks, false, remaining)
  {
  }

  lemma JoinIsCut(scope: Scope, p: Coverage, turn: Turn, cut: Coverage, kept: seq<Fact>, certified: Hash, remaining: nat)
    requires Answered(p, turn) && kept != [] && kept <= turn.answer.blocks && kept[|kept| - 1].hash == certified
    requires certified in scope.proofs && cut.target == p.target && cut.next == p.next
    requires cut.floorHash == JoinFloor(kept[|kept| - 1])
    requires forall f | f in turn.answer.blocks && f.hash in scope.proofs :: scope.proofs[f.hash].height <= scope.proofs[certified].height
    ensures IsCut(scope, p, turn, cut, kept, true, remaining)
  {
    assert turn.answer.blocks[|kept| - 1] == kept[|kept| - 1];
  }

  lemma InvalidIsFatal(scope: Scope, p: Coverage, turn: Turn, after: Record)
    requires Proceeds(turn) && Requested(p).Some? && turn.answer.Payloads? && !Unavailable(turn.answer) && !Usable(p, turn)
    ensures Cause(scope, p, turn, false, after, SettledAs(turn, false, InvalidPage, p.target))
  {
    hide Usable;
    SettledCause(scope, p, turn, false, after, false, InvalidPage);
  }

  lemma CutEnds(scope: Scope, p: Coverage, turn: Turn, cut: Coverage, kept: seq<Fact>, joined: bool, remaining: nat)
    requires IsCut(scope, p, turn, cut, kept, joined, remaining)
    ensures var blocks, oldest, completes := turn.answer.blocks, kept[|kept| - 1], joined || |kept| == remaining;
      && oldest in blocks && FloorUnder(scope, p, blocks, oldest) == cut.floorHash
      && (completes <==> EndsWith(scope, p, blocks, oldest))
      && (!completes <==> IsPart(scope, p, turn))
      && (!completes ==> !IsLast(scope, p, turn) && kept == blocks)
  {
    assert turn.answer.blocks[|kept| - 1] == kept[|kept| - 1];
  }

  lemma RecordCauseIsCause(scope: Scope, p: Coverage, turn: Turn, cut: Coverage, kept: seq<Fact>, joined: bool, remaining: nat,
                           verdict: Option<PageResult>, after: Record, o: Outcome)
    requires IsCut(scope, p, turn, cut, kept, joined, remaining)
    requires RecordCause(scope, cut, turn, kept, joined, remaining, verdict, after, o)
    ensures Cause(scope, p, turn, verdict == Some(Uncertified), after, o)
  {
    CutEnds(scope, p, turn, cut, kept, joined, remaining);
    hide VerifyPage, EndsWith, Disagrees, HasConflict, Meets, Highest;
    var oldest, completes := kept[|kept| - 1], joined || |kept| == remaining;
    if completes && !StartHashFits(scope.expectedStart, cut.floorHash, completes, oldest.hash) {
      assert IsWrongStart(scope, p, turn);
      SettledCause(scope, p, turn, verdict == Some(Uncertified), after, false, WrongStartHash);
    } else if Strays(cut, kept, joined, remaining) {
      assert IsAstray(scope, p, turn);
    } else {
      assert completes ==> IsLast(scope, p, turn);
      if !turn.recording.crash && (turn.commitFails || (completes && verdict == Some(Uncertified))) {
        SettledCause(scope, p, turn, verdict == Some(Uncertified), after, false, PageFailure);
      }
    }
  }

  lemma RecordGoesOnIsPage(scope: Scope, p: Coverage, turn: Turn, kept: seq<Fact>, remaining: nat, after: Record, p2: Coverage)
    requires IsCut(scope, p, turn, p, kept, false, remaining)
    requires RecordGoesOn(scope, p, turn, kept, false, remaining, after, p2)
    ensures PageGoesOn(scope, p, turn, p2) && (IsPart(scope, p, turn) ==> !Disagrees(after.facts, turn.answer.blocks))
  {
    CutEnds(scope, p, turn, p, kept, false, remaining);
    hide VerifyPage, EndsWith, Disagrees, Meets;
  }

  /** A page that passes the check is ready to be recorded or cut at a join. */
  lemma VerifiedIsChecked(r: Record, progress: Coverage, turn: Turn, blocks: seq<Fact>, remaining: nat)
    requires progress.next.Some? && progress.next.value.height <= MAX_HEIGHT && turn.answer == Payloads(blocks)
    requires BlocksThroughFloor(progress.next.value.height, progress.floorHeight) == Some(remaining)
    ensures var requested := if remaining < progress.page then remaining else progress.page;
      && (Usable(progress, turn) <==> VerifyPage(blocks, progress.next.value, requested))
      && (Usable(progress, turn) ==>
            && blocks != [] && Continues(blocks, progress.next.value) && |blocks| <= remaining
            && (blocks[|blocks| - 1].hash !in r.certified ==> Checked(r, progress, blocks, false, remaining)))
  {
    var cursor, requested := progress.next.value, if remaining < progress.page then remaining else progress.page;
    VerifiedPageContinues(blocks, cursor, requested);
    if VerifyPage(blocks, cursor, requested) {
      PrefixContinues(blocks, blocks, cursor);
    }
  }

  method HandlePage(store: Store, progress: Coverage, restarted: bool, turn: Turn, blocks: seq<Fact>, remaining: nat,
                    expectedStart: Option<Hash>, ghost scope: Scope, ghost source: Source)
    returns (progress2: Coverage, restarted2: bool, done: Option<Outcome>, verdict: Option<PageResult>)
    requires Good(store.State(), source) && Mirrors(store.State(), progress)
    requires progress.next.Some? && progress.page > 0 && (restarted ==> progress.floorHash.None?)
    requires BlocksThroughFloor(progress.next.value.height, progress.floorHeight) == Some(remaining)
    requires Trusted(source, blocks) && Trusted(source, turn.recording.live) && !Unavailable(turn.answer) && Proceeds(turn)
    requires Fixed(scope, store.State(), source) && expectedStart == scope.expectedStart
    requires turn.answer == Payloads(blocks)
    modifies store
    ensures done.Some? ==> Explained(scope, store, progress, turn, verdict, done.value)
    ensures done.None? ==> PageGoesOn(scope, progress, turn, progress2) && Uncontradicted(scope, store, progress, turn)
    ensures Turned(old(store.State()), store.State(), source, turn, progress, restarted,
                   progress2, restarted2, done, verdict)
  {
    GoodRow(store.State(), source);
    EvolvesReflexive(store.State());
    hide Good, Evolves, Turned, Cause;
    progress2, restarted2, done, verdict := progress, restarted, None, None;
    var cursor := progress.next.value;
    var requested := if remaining < progress.page then remaining else progress.page;
    VerifiedIsChecked(store.State(), progress, turn, blocks, remaining);
    hide VerifyPage, Continues, Usable, Checked, PageGoesOn, Uncontradicted, RecordCause, RecordGoesOn, IsCut, IsPart, Trusted;
    if !VerifyPage(blocks, cursor, requested) {
      var o := EndTurn(store, progress, restarted, turn, false, InvalidPage, None, source);
      InvalidIsFatal(scope, progress, turn, store.State());
      done := Some(o);
      return;
    }
    var certified := CertifiedBlock(store, blocks);
    if certified.None? {
      assert blocks[|blocks| - 1] in blocks;
      WholeIsCut(scope, progress, turn, remaining);
      progress2, restarted2, done, verdict :=
        RecordVerified(store, progress, restarted, turn, blocks, false, remaining, expectedStart, scope, source);
      if done.Some? {
        RecordCauseIsCause(scope, progress, turn, progress, blocks, false, remaining, verdict, store.State(), done.value);
      } else {
        RecordGoesOnIsPage(scope, progress, turn, blocks, remaining, store.State(), progress2);
      }
    } else {
      progress2, restarted2, done, verdict :=
        JoinAndRecord(store, progress, restarted, turn, blocks, remaining, certified.value, expectedStart, scope, source);
    }
  }

  /** Certification ends this page's cycle: the floor moves to the join, then the page is recorded. */
  method JoinAndRecord(store: Store, progress: Coverage, restarted: bool, turn: Turn, blocks: seq<Fact>, remaining: nat,
                       certified: Block, expectedStart: Option<Hash>, ghost scope: Scope, ghost source: Source)
    returns (progress2: Coverage, restarted2: bool, done: Option<Outcome>, verdict: Option<PageResult>)
    requires Good(store.State(), source) && Mirrors(store.State(), progress)
    requires progress.next.Some? && progress.next.value.height <= MAX_HEIGHT && progress.page > 0
    requires Continues(blocks, progress.next.value) && |blocks| <= remaining
    requires certified.hash in store.certified && exists i :: 0 <= i < |blocks| && blocks[i].hash == certified.hash
    requires forall f | f in blocks && f.hash in store.certified ::
      store.certified[f.hash].height <= store.certified[certified.hash].height
    requires Trusted(source, blocks) && Trusted(source, turn.recording.live) && !Unavailable(turn.answer) && Proceeds(turn)
    requires Fixed(scope, store.State(), source) && expectedStart == scope.expectedStart
    requires turn.answer == Payloads(blocks) && Usable(progress, turn)
    modifies store
    ensures done.Some? ==> Explained(scope, store, progress, turn, verdict, done.value)
    ensures done.Some?
    ensures Turned(old(store.State()), store.State(), source, turn, progress, restarted,
                   progress2, restarted2, done, verdict)
  {
    GoodRow(store.State(), source);
    EvolvesReflexive(store.State());
    hide Good, Evolves, Turned, Cause, Usable, RecordCause, RecordGoesOn, IsCut, Trusted;
    var joined, kept, ok := JoinCertified(store, progress, blocks, certified, source);
    ghost var mid := store.State();
    PrefixContinues(blocks, kept, progress.next.value);
    JoinIsCut(scope, progress, turn, joined, kept, certified.hash, remaining);
    assert Checked(mid, joined, kept, true, remaining);
    progress2, restarted2, done, verdict :=
      RecordVerified(store, joined, restarted, turn, kept, true, remaining, expectedStart, scope, source);
    RecordCauseIsCause(scope, progress, turn, joined, kept, true, remaining, verdict, store.State(), done.value);
    TurnedAfterJoin(old(store.State()), mid, store.State(), source, turn, progress, joined, restarted,
                    progress2, restarted2, done, verdict);
  }

  lemma TurnedAfterJoin(before: Record, mid: Record, after: Record, source: Source, turn: Turn,
                        p: Coverage, joined: Coverage, restarted: bool, p2: Coverage, restarted2: bool,
                        done: Option<Outcome>, verdict: Option<PageResult>)
    requires Evolves(before, mid) && joined.page == p.page && done.Some? && !Unavailable(turn.answer)
    requires Above(before) ==> Above(mid)
    requires Turned(mid, after, source, turn, joined, restarted, p2, restarted2, done, verdict)
    ensures Turned(before, after, source, turn, p, restarted, p2, restarted2, done, verdict)
  {
    EvolvesTransitive(before, mid, after);
  }

  /** A cursor that is not above its floor fails the run and changes nothing. */
  lemma StuckTurn(r: Record, source: Source, scope: Scope, turn: Turn, p: Coverage, restarted: bool)
    requires Good(r, source) && Mirrors(r, p) && p.next.Some?
    requires BlocksThroughFloor(p.next.value.height, p.floorHeight).None? && Proceeds(turn)
    ensures Turned(r, r, source, turn, p, restarted, p, restarted, Some(Failed(CursorBelowFloor)), None)
    ensures Stuck(r) && Cause(scope, p, turn, false, r, Failed(CursorBelowFloor))
  {
    GoodRow(r, source);
    EvolvesReflexive(r);
    hide Good, Evolves;
  }

  /** One iteration from the request on. */
  method Request(store: Store, progress: Coverage, restarted: bool, turn: Turn, expectedStart: Option<Hash>,
                 ghost scope: Scope, ghost source: Source)
    returns (progress2: Coverage, restarted2: bool, done: Option<Outcome>, verdict: Option<PageResult>)
    requires Good(store.State(), source) && Mirrors(store.State(), progress)
    requires progress.next.Some? && progress.page > 0 && (restarted ==> progress.floorHash.None?)
    requires HonestTurn(source, turn) && Fixed(scope, store.State(), source) && expectedStart == scope.expectedStart
    requires Proceeds(turn)
    modifies store
    ensures done.Some? ==> Explained(scope, store, progress, turn, verdict, done.value)
    ensures done.None? ==> GoesOn(scope, progress, turn, progress2) && Uncontradicted(scope, store, progress, turn)
    ensures Turned(old(store.State()), store.State(), source, turn, progress, restarted,
                   progress2, restarted2, done, verdict)
    ensures Stuck(old(store.State())) ==> done.Some? && StuckOutcome(done.value) && Stuck(store.State())
    ensures Wedges(store.start, progress, turn) ==> done.None? && Stuck(store.State())
    ensures done == Some(Failed(CursorBelowFloor)) ==> store.coverage == old(store.coverage)
  {
    GoodRow(store.State(), source);
    EvolvesReflexive(store.State());
    hide Good, Evolves, Turned, Cause, PageGoesOn, FullCycle, Gone, Stuck, StuckOutcome;
    progress2, restarted2, done, verdict := progress, restarted, None, None;
    var remaining := BlocksThroughFloor(progress.next.value.height, progress.floorHeight);
    if remaining.None? {
      StuckTurn(store.State(), source, scope, turn, progress, restarted);
      done := Some(Failed(CursorBelowFloor));
    } else if Unavailable(turn.answer) {
      progress2, restarted2, done := HandleUnavailable(store, progress, restarted, turn, scope, source);
    } else if turn.answer.Payloads? {
      progress2, restarted2, done, verdict := HandlePage(store, progress, restarted, turn, turn.answer.blocks,
                                                         remaining.value, expectedStart, scope, source);
    } else {
      progress2, done := HandleError(store, progress, restarted, turn, scope, source);
    }
  }

  /** No page came back: ask for a smaller one, or end the pass. */
  method HandleError(store: Store, progress: Coverage, restarted: bool, turn: Turn,
                     ghost scope: Scope, ghost source: Source)
    returns (progress2: Coverage, done: Option<Outcome>)
    requires Good(store.State(), source) && Mirrors(store.State(), progress)
    requires progress.page > 0 && (restarted ==> progress.floorHash.None?)
    requires turn.answer.TooLarge? || turn.answer.Transient? || turn.answer.Broken?
    requires Proceeds(turn) && Requested(progress).Some? && Fixed(scope, store.State(), source)
    modifies store
    ensures done.Some? ==> Explained(scope, store, progress, turn, None, done.value)
    ensures done.None? ==> GoesOn(scope, progress, turn, progress2)
    ensures Turned(old(store.State()), store.State(), source, turn, progress, restarted,
                   progress2, restarted, done, None)
  {
    GoodRow(store.State(), source);
    hide Good, Evolves, Turned, Cause;
    progress2, done := progress, None;
    if turn.answer.TooLarge? && progress.page > 1 {
      progress2, done := ShrinkPage(store, progress, restarted, turn, scope, source);
    } else {
      var o := EndTurn(store, progress, restarted, turn, !turn.answer.Broken?, SourceFailure, None, source);
      SettledCause(scope, progress, turn, false, store.State(), !turn.answer.Broken?, SourceFailure);
      done := Some(o);
    }
  }

  lemma UnshrunkEnds(scope: Scope, p: Coverage, turn: Turn, after: Record)
    requires Proceeds(turn) && Requested(p).Some? && turn.answer.TooLarge? && p.page > 1 && turn.resizeFails
    ensures Cause(scope, p, turn, false, after, SettledAs(turn, false, PageFailure, p.target))
  {
    hide Cause;
    SettledCause(scope, p, turn, false, after, false, PageFailure);
  }

  method ShrinkPage(store: Store, progress: Coverage, restarted: bool, turn: Turn,
                    ghost scope: Scope, ghost source: Source)
    returns (progress2: Coverage, done: Option<Outcome>)
    requires Good(store.State(), source) && Mirrors(store.State(), progress)
    requires progress.page > 1 && (restarted ==> progress.floorHash.None?) && turn.answer.TooLarge?
    requires Proceeds(turn) && Requested(progress).Some?
    modifies store
    ensures done.Some? ==> Explained(scope, store, progress, turn, None, done.value)
    ensures Turned(old(store.State()), store.State(), source, turn, progress, restarted,
                   progress2, restarted, done, None)
    ensures done.None? <==> !turn.resizeFails
    ensures done.Some? ==>
      done.value == if turn.currentAtSettlement then Failed(PageFailure) else SupersededScope(progress.target)
    ensures done.None? ==> progress2 == progress.(page := progress.page / 2)
  {
    GoodRow(store.State(), source);
    hide Good, Evolves, Turned, Cause;
    ghost var before := store.State();
    progress2, done := progress, None;
    var reduced := progress.page / 2;
    var ok := false;
    if !turn.resizeFails {
      StepIsGood(store.State(), Shrink(reduced, "too large"), source);
      ok := store.Resize(reduced, "too large");
    }
    if ok {
      ShrunkTurn(before, store.State(), source, turn, progress, restarted);
      progress2 := progress.(page := reduced);
    } else {
      var o := EndTurn(store, progress, restarted, turn, false, PageFailure, None, source);
      UnshrunkEnds(scope, progress, turn, store.State());
      done := Some(o);
    }
  }

  method WalkOnce(store: Store, progress: Coverage, restarted: bool, turn: Turn, expectedStart: Option<Hash>,
                  ghost scope: Scope, ghost source: Source)
    returns (progress2: Coverage, restarted2: bool, done: Option<Outcome>, verdict: Option<PageResult>)
    requires Good(store.State(), source) && Mirrors(store.State(), progress)
    requires progress.next.Some? && progress.page > 0 && (restarted ==> progress.floorHash.None?)
    requires HonestTurn(source, turn) && Fixed(scope, store.State(), source) && expectedStart == scope.expectedStart
    modifies store
    ensures done.Some? ==> Explained(scope, store, progress, turn, verdict, done.value)
    ensures done.None? ==> GoesOn(scope, progress, turn, progress2) && Uncontradicted(scope, store, progress, turn)
    ensures Turned(old(store.State()), store.State(), source, turn, progress, restarted,
                   progress2, restarted2, done, verdict)
    ensures Stuck(old(store.State())) ==> done.Some? && StuckOutcome(done.value) && Stuck(store.State())
    ensures Wedges(store.start, progress, turn) ==> done.None? && Stuck(store.State())
    ensures done.None? <==> MayGoOn(scope, progress, turn) && Uncontradicted(scope, store, progress, turn)
    ensures Proceeds(turn) && Requested(progress).Some? && turn.answer.TooLarge? && progress.page > 1 && !turn.resizeFails ==>
      done.None? && progress2 == progress.(page := progress.page / 2)
    ensures turn.shutdown ==> store.State() == old(store.State())
    ensures done == Some(Failed(CursorBelowFloor)) ==> store.coverage == old(store.coverage)
  {
    EvolvesReflexive(store.State());
    hide Good, Evolves, Turned;
    ghost var before := store.State();
    progress2, restarted2, done, verdict := progress, restarted, None, None;
    if turn.shutdown {
      StoppedTurn(before, before, source, turn, progress, restarted, Interrupted(progress.target));
      done := Some(Interrupted(progress.target));
      return;
    }
    if !turn.current {
      var o := RetireScope(store, progress.target, source);
      RetiredTurn(before, store.State(), source, turn, progress, restarted);
      done := Some(o);
      return;
    }
    var crashed := Interlude(store, turn.fetching, source);
    if crashed {
      StoppedTurn(before, store.State(), source, turn, progress, restarted, Crashed);
      done := Some(Crashed);
      return;
    }
    ghost var mid := store.State();
    progress2, restarted2, done, verdict := Request(store, progress, restarted, turn, expectedStart, scope, source);
    TurnedAfterPause(before, mid, store.State(), source, turn, progress, restarted,
                     progress2, restarted2, done, verdict);
    if done.None? {
      GoingOnIsAllowed(scope, progress, turn, progress2);
    } else if MayGoOn(scope, progress, turn) {
      EndsOrGoesOn(scope, progress, turn, verdict == Some(Uncertified), store.State(), done.value);
    }
  }

  // ---------------------------------------------------------------- starting

  datatype Prepared = NothingToDo | Ready(progress: Coverage) | Refused(why: Failure)

  /** `prepare_cycle`: start, extend, restart or resume; never two targets at once. */
  method PrepareCycle(store: Store, tip: Block, configured: nat, ghost source: Source)
    returns (prepared: Prepared)
    requires Good(store.State(), source)
    modifies store`coverage
    ensures Good(store.State(), source) && Evolves(old(store.State()), store.State())
    ensures prepared.Ready? ==>
      && Mirrors(store.State(), prepared.progress) && prepared.progress.next.Some?
      && 0 < prepared.progress.page
      && prepared.progress.page <= (if old(store.coverage).Some? then old(store.coverage).value.page else configured)
    ensures prepared.Ready? ==> Prepares(old(store.State()), tip, configured, prepared.progress)
    ensures prepared.NothingToDo? ==> store.State() == old(store.State())
    ensures prepared.NothingToDo? <==> tip.height >= store.start && AlreadyCovered(old(store.State()), tip)
    ensures prepared.Refused? ==> store.State() == old(store.State())
    ensures prepared == Refused(TipBelowStart) <==> tip.height < store.start
    ensures prepared == Refused(CycleRefused) <==>
      && tip.height >= store.start && NeedsCycle(old(store.State())) && !AlreadyCovered(old(store.State()), tip)
      && CycleOverflows(old(store.State()), tip, configured)
    ensures prepared.Refused? ==> prepared.why in {TipBelowStart, CycleRefused}
    ensures Above(old(store.State())) ==> Above(store.State())
    ensures Stuck(old(store.State())) ==>
      Stuck(store.State()) && (prepared.Ready? || prepared == Refused(TipBelowStart))
  {
    GoodRow(store.State(), source);
    EvolvesReflexive(store.State());
    hide Good, Evolves;
    if tip.height < store.start {
      return Refused(TipBelowStart);
    }
    if store.coverage.None? {
      var begun := BeginFull(store, tip, configured, source);
      return if begun.Some? then Ready(begun.value) else Refused(CycleRefused);
    }
    var existing := store.coverage.value;
    match existing.status
    case Running => prepared := Ready(existing);
    case Error | Superseded =>
      var ok := ResumeCycle(store, existing, source);
      prepared := if ok then Ready(existing.(status := Running, lastError := None)) else Refused(NotResumable);
    case Complete =>
      prepared := NextCycle(store, existing, tip, configured, source);
  }

  /** A suspended or superseded row walks on from its own cursor. */
  method ResumeCycle(store: Store, existing: Coverage, ghost source: Source) returns (ok: bool)
    requires Good(store.State(), source) && store.coverage == Some(existing) && existing.status in {Error, Superseded}
    modifies store`coverage
    ensures ok && Good(store.State(), source) && Evolves(old(store.State()), store.State())
    ensures store.coverage == Some(existing.(status := Running, lastError := None)) && existing.next.Some?
    ensures Above(old(store.State())) ==> Above(store.State())
    ensures Stuck(old(store.State())) ==> Stuck(store.State())
  {
    GoodRow(store.State(), source);
    hide Good, Evolves;
    StepIsGood(store.State(), Reopen, source);
    ok := store.Resume();
  }

  /** Extend the covered history from its own tip. */
  method BeginExtension(store: Store, covered: Block, target: Block, page: nat, ghost source: Source)
    returns (progress: Option<Coverage>)
    requires Good(store.State(), source) && CoveredOf(store.State()) == Some(covered)
    modifies store`coverage
    ensures Good(store.State(), source) && Evolves(old(store.State()), store.State())
    ensures progress.Some? ==>
      && store.coverage == progress && progress.value.status == Running && progress.value.next == Some(target)
      && progress.value.target == target && progress.value.page == page && page > 0
      && progress.value.floorHash == Some(covered.hash) && progress.value.floorHeight == Some(covered.height)
    ensures progress.None? ==> store.coverage == old(store.coverage)
    ensures covered.height <= MAX_HEIGHT ==> (progress.Some? <==> target.height <= MAX_HEIGHT && 0 < page <= MAX_HEIGHT)
  {
    hide Good, Evolves;
    StepIsGood(store.State(), Begin(Some(covered), target, Some(covered.hash), Some(covered.height), page), source);
    var ok := store.BeginCycle(Some(covered), target, Some(covered.hash), Some(covered.height), page);
    progress := if ok then store.coverage else None;
  }

  /** What a completed row's next cycle looks like. */
  lemma NextCycleIs(r: Record, existing: Coverage, tip: Block, configured: nat, begun: Option<Coverage>)
    requires r.coverage == Some(existing) && existing.status == Complete && existing.covered.Some?
    requires existing.page <= MAX_HEIGHT && existing.covered.value.hash != tip.hash
    requires var covered, page := existing.covered.value, if existing.page < configured then existing.page else configured;
      && (begun.Some? <==> tip.height <= MAX_HEIGHT && 0 < page && (tip.height <= covered.height ==> StartFitsColumn(r.start)))
      && (begun.Some? ==>
            && begun.value.status == Running && begun.value.next == Some(tip) && begun.value.target == tip && begun.value.page == page
            && if tip.height > covered.height
               then begun.value.floorHash == Some(covered.hash) && begun.value.floorHeight == Some(covered.height)
               else begun.value.floorHash.None? && begun.value.floorHeight == Below(r.start))
    ensures !AlreadyCovered(r, tip)
    ensures begun.None? <==> CycleOverflows(r, tip, configured)
    ensures begun.Some? ==> Prepares(r, tip, configured, begun.value)
  {
  }

  /** A completed row: nothing to do, extend from the covered tip, or repair with a full cycle. */
  method NextCycle(store: Store, existing: Coverage, tip: Block, configured: nat,
                   ghost source: Source)
    returns (prepared: Prepared)
    requires Good(store.State(), source) && store.coverage == Some(existing)
    requires existing.status == Complete && tip.height >= store.start
    modifies store`coverage
    ensures Good(store.State(), source) && Evolves(old(store.State()), store.State())
    ensures prepared.Ready? ==>
      && Mirrors(store.State(), prepared.progress) && prepared.progress.next.Some?
      && 0 < prepared.progress.page <= existing.page
    ensures prepared.Ready? ==> Prepares(old(store.State()), tip, configured, prepared.progress)
    ensures prepared.NothingToDo? ==> store.coverage == old(store.coverage)
    ensures prepared.NothingToDo? <==> AlreadyCovered(old(store.State()), tip)
    ensures prepared.Refused? ==> store.coverage == old(store.coverage) && prepared.why == CycleRefused
    ensures prepared.Refused? <==>
      !AlreadyCovered(old(store.State()), tip) && CycleOverflows(old(store.State()), tip, configured)
    ensures Above(store.State())
  {
    GoodRow(store.State(), source);
    EvolvesReflexive(store.State());
    hide Good, Evolves;
    assert existing.covered.Some? && existing.covered.value.height <= MAX_HEIGHT && 0 < existing.page <= MAX_HEIGHT;
    var covered := existing.covered.value;
    if covered.hash == tip.hash {
      return NothingToDo;
    }
    var page := if existing.page < configured then existing.page else configured;
    ghost var before := store.State();
    var begun;
    if tip.height > covered.height {
      begun := BeginExtension(store, covered, tip, page, source);
    } else {
      begun := BeginFull(store, tip, page, source);
    }
    NextCycleIs(before, existing, tip, configured, begun);
    hide AlreadyCovered, CycleOverflows, Prepares;
    prepared := if begun.Some? then Ready(begun.value) else Refused(CycleRefused);
  }

  // ---------------------------------------------------------------- the whole run

  /** Target replacements the source still has in store between two iterations. */
  ghost function Replacements(script: nat -> Turn, from: nat, calm: nat): nat
    decreases calm - from
  {
    if from >= calm then 0
    else (if Replaces(script(from)) then 1 else 0) + Replacements(script, from + 1, calm)
  }

  /**
    `run_history`, for any script of answers, interleaved live facts and crash points. It ends if the
    script replaces the target only finitely often: `calm` bounds the iterations that may do so.
    `asked` is the progress each iteration started from.
   */
  method Run(store: Store, tip: Block, configured: nat, expectedStart: Option<Hash>, current: bool,
             script: nat -> Turn, ghost calm: nat, ghost source: Source)
    returns (outcome: Outcome, refused: bool, ghost asked: seq<Coverage>)
    requires Good(store.State(), source) && (source.Linked() ==> expectedStart == source.startHash)
    requires forall i: nat :: HonestTurn(source, script(i))
    requires forall i: nat :: i >= calm ==> !Replaces(script(i))
    modifies store
    ensures Good(store.State(), source) && Evolves(old(store.State()), store.State())
    ensures Ended(old(store.State()), store.State(), outcome)
    ensures source.Linked() ==> StartsAt(store.State(), expectedStart)
    ensures RunCause(old(store.State()), ScopeOf(old(store.State()), source, expectedStart), tip, configured, current, script,
                     asked, refused, store.State(), outcome)
    ensures !current ==> outcome == SupersededScope(tip) && asked == []
    ensures current && Quarantine(old(store.State())) ==> outcome == QuarantinedScope(tip) && asked == []
    ensures current && asked == [] ==> store.State() == old(store.State())
    ensures source.Linked() ==> !refused
    ensures old(store.coverage).Some? ==> store.coverage.Some? && store.coverage.value.page <= old(store.coverage).value.page
    ensures Above(old(store.State())) ==>
      && (Above(store.State()) <==> Unwedged(store.start, script, asked)) && (Above(store.State()) || Stuck(store.State()))
      && (Above(store.State()) ==> outcome != Failed(CursorBelowFloor))
    ensures source.Linked() && Above(old(store.State()))
            && Cooperates(old(store.State()), ScopeOf(old(store.State()), source, expectedStart), tip, configured, current,
                          script, asked) ==>
      Served(old(store.State()), tip, store.State(), outcome)
    ensures Stuck(old(store.State())) ==> Stuck(store.State()) && StuckOutcome(outcome)
  {
    GoodRow(store.State(), source);
    EvolvesReflexive(store.State());
    hide Good, Evolves, Cause, GoesOnAlong, Prepares;
    ghost var before := store.State();
    ghost var scope := ScopeOf(before, source, expectedStart);
    outcome, refused, asked := RunScope(store, tip, configured, expectedStart, current, script, calm, source);
    GoodStart(store.State(), source);
    AsksNothingIff(before, scope, tip, configured, current, script, asked, refused, store.State(), outcome);
    if source.Linked() && Above(before) && Cooperates(before, scope, tip, configured, current, script, asked) {
      CooperativeIsUnwedged(scope, script, asked);
      EndedQuarantine(before, store.State(), source, outcome);
      CooperativeRunCompletes(before, scope, tip, configured, current, script, asked, store.State(), outcome);
    }
  }

  lemma EndedQuarantine(before: Record, after: Record, source: Source, o: Outcome)
    requires Good(after, source) && Ended(before, after, o)
    ensures o.QuarantinedScope? ==> HasConflict(after)
  {
    hide StoreInv, StartInv, FloorInv, Trusted, CursorLinked;
  }

  ghost function ScopeOf(r: Record, source: Source, expectedStart: Option<Hash>): Scope {
    Scope(r.start, r.certified, source.Linked(), expectedStart)
  }

  datatype Started = Over(outcome: Outcome) | Go(progress: Coverage)

  /** What happens before the first request: the instance, the quarantine and the cycle are looked at. */
  method StartScope(store: Store, tip: Block, configured: nat, current: bool, ghost source: Source) returns (started: Started)
    requires Good(store.State(), source)
    modifies store`coverage
    ensures Good(store.State(), source) && Evolves(old(store.State()), store.State())
    ensures old(store.coverage).Some? ==> store.coverage.Some? && store.coverage.value.page <= old(store.coverage).value.page
    ensures started.Over? && current ==> store.State() == old(store.State())
    ensures started.Go? ==> MayWalk(old(store.State()), tip, current)
    ensures started.Over? ==>
      && Ended(old(store.State()), store.State(), started.outcome)
      && StartCause(old(store.State()), tip, configured, current, started.outcome)
      && started.outcome != Failed(CursorBelowFloor)
      && (started.outcome.UpToDate? ==>
            store.State() == old(store.State()) && store.coverage.Some? && store.coverage.value.status == Complete)
      && (Stuck(old(store.State())) ==> StuckOutcome(started.outcome))
    ensures started.Go? ==>
      && Prepares(old(store.State()), tip, configured, started.progress)
      && Mirrors(store.State(), started.progress) && started.progress.next.Some? && started.progress.page > 0
    ensures Above(old(store.State())) ==> Above(store.State())
    ensures Stuck(old(store.State())) ==> Stuck(store.State())
  {
    GoodRow(store.State(), source);
    EvolvesReflexive(store.State());
    hide Good, Evolves, Prepares;
    if !current {
      var o := RetireScope(store, tip, source);
      return Over(o);
    }
    if Quarantine(store.State()) {
      return Over(QuarantinedScope(tip));
    }
    var prepared := PrepareCycle(store, tip, configured, source);
    match prepared
    case NothingToDo => return Over(UpToDate(tip));
    case Refused(why) => return Over(Failed(why));
    case Ready(progress) => return Go(progress);
  }

  /** The run without what follows for a cooperative source. */
  method RunScope(store: Store, tip: Block, configured: nat, expectedStart: Option<Hash>, current: bool,
                  script: nat -> Turn, ghost calm: nat, ghost source: Source)
    returns (outcome: Outcome, refused: bool, ghost asked: seq<Coverage>)
    requires Good(store.State(), source) && (source.Linked() ==> expectedStart == source.startHash)
    requires forall i: nat :: HonestTurn(source, script(i))
    requires forall i: nat :: i >= calm ==> !Replaces(script(i))
    modifies store
    ensures Good(store.State(), source) && Evolves(old(store.State()), store.State())
    ensures Ended(old(store.State()), store.State(), outcome)
    ensures RunCause(old(store.State()), ScopeOf(old(store.State()), source, expectedStart), tip, configured, current, script,
                     asked, refused, store.State(), outcome)
    ensures current && asked == [] ==> store.State() == old(store.State())
    ensures source.Linked() ==> !refused
    ensures old(store.coverage).Some? ==> store.coverage.Some? && store.coverage.value.page <= old(store.coverage).value.page
    ensures Above(old(store.State())) ==>
      && (Above(store.State()) <==> Unwedged(store.start, script, asked)) && (Above(store.State()) || Stuck(store.State()))
      && (Above(store.State()) ==> outcome != Failed(CursorBelowFloor))
    ensures Stuck(old(store.State())) ==> Stuck(store.State()) && StuckOutcome(outcome)
  {
    hide Good, Evolves, Cause, Prepares, Ended, Above, Stuck, StartCause, MayWalk, GoesOnAlong;
    refused, asked := false, [];
    ghost var before := store.State();
    ghost var scope := ScopeOf(before, source, expectedStart);
    NothingAsked(scope, script);
    var started := StartScope(store, tip, configured, current, source);
    match started
    case Over(over) => outcome := over;
    case Go(progress) =>
      ghost var mid := store.State();
      outcome, refused, asked := Loop(store, progress, expectedStart, script, calm, scope, source);
      EvolvesTransitive(before, mid, store.State());
      EndedEarlier(before, mid, store.State(), outcome);
  }

  lemma NothingAsked(scope: Scope, script: nat -> Turn)
    ensures GoesOnAlong(scope, script, [])
  {
  }

  lemma StartIsConstant(before: Record, after: Record)
    requires Evolves(before, after)
    ensures after.start == before.start
  {
  }

  /** What holds between two iterations of a run that began at `first` and `started`. */
  ghost predicate Underway(first: Record, now: Record, scope: Scope, source: Source, script: nat -> Turn, started: Coverage,
                           asked: seq<Coverage>, progress: Coverage, restarted: bool)
  {
    && Good(now, source) && Evolves(first, now) && Mirrors(now, progress) && progress.next.Some?
    && Fixed(scope, now, source) && (restarted ==> progress.floorHash.None?)
    && 0 < progress.page <= started.page
    && (asked + [progress])[0] == started
    && GoesOnAlong(scope, script, asked + [progress])
    && (Above(first) ==> (Above(now) <==> Unwedged(scope.start, script, asked)) && (Above(now) || Stuck(now)))
    && (Stuck(first) ==> Stuck(now))
  }

  /** What holds when such a run ends. */
  ghost predicate RunOver(first: Record, now: Record, scope: Scope, source: Source, script: nat -> Turn, started: Coverage,
                          asked: seq<Coverage>, refused: bool, outcome: Outcome)
  {
    && Good(now, source) && Evolves(first, now) && Ended(first, now, outcome) && !outcome.UpToDate?
    && asked != [] && asked[0] == started && GoesOnAlong(scope, script, asked)
    && Cause(scope, asked[|asked| - 1], script(|asked| - 1), refused, now, outcome)
    && (source.Linked() ==> !refused)
    && PageNeverGrows(started, now)
    && (Above(first) ==>
          && (Above(now) <==> Unwedged(scope.start, script, asked)) && (Above(now) || Stuck(now))
          && (Above(now) ==> outcome != Failed(CursorBelowFloor)))
    && (Stuck(first) ==> Stuck(now) && StuckOutcome(outcome))
  }

  method Loop(store: Store, started: Coverage, expectedStart: Option<Hash>, script: nat -> Turn,
              ghost calm: nat, ghost scope: Scope, ghost source: Source)
    returns (outcome: Outcome, refused: bool, ghost asked: seq<Coverage>)
    requires Good(store.State(), source) && Mirrors(store.State(), started)
    requires started.next.Some? && started.page > 0
    requires Fixed(scope, store.State(), source) && expectedStart == scope.expectedStart
    requires forall i: nat :: HonestTurn(source, script(i))
    requires forall i: nat :: i >= calm ==> !Replaces(script(i))
    modifies store
    ensures RunOver(old(store.State()), store.State(), scope, source, script, started, asked, refused, outcome)
  {
    ghost var first := store.State();
    RunBegins(first, scope, source, script, started);
    var progress, restarted := started, started.floorHash.None?;
    var turn: nat := 0;
    refused, asked := false, [];
    hide Good, Evolves, Mirrors, Fixed, Underway, RunOver, Turned, GoesOn, MayGoOn, Cause, HonestTurn, Stuck, StuckOutcome,
      Above, Wedges, Gap, Replacements, Replaces;
    while true
      invariant Underway(first, store.State(), scope, source, script, started, asked, progress, restarted)
      invariant |asked| == turn
      decreases Replacements(script, turn, calm), if restarted then 0 else 1, Gap(progress), progress.page
    {
      ghost var before := store.State();
      UnderwayIsReady(first, before, scope, source, script, started, asked, progress, restarted);
      ghost var oldProgress, oldRestarted := progress, restarted;
      var done, verdict;
      progress, restarted, done, verdict :=
        WalkOnce(store, progress, restarted, script(turn), expectedStart, scope, source);
      if done.Some? {
        refused := verdict == Some(Uncertified);
        RunEnds(first, before, store.State(), scope, source, script, started, asked, oldProgress, oldRestarted,
                progress, restarted, verdict, done.value);
        return done.value, refused, asked + [oldProgress];
      }
      RunGoesOn(first, before, store.State(), scope, source, script, started, asked, oldProgress, oldRestarted,
                progress, restarted, verdict);
      ReplacementUsed(script, turn, calm);
      asked, turn := asked + [oldProgress], turn + 1;
    }
  }

  lemma RunBegins(first: Record, scope: Scope, source: Source, script: nat -> Turn, started: Coverage)
    requires Good(first, source) && Mirrors(first, started) && started.next.Some? && started.page > 0
    requires Fixed(scope, first, source)
    ensures Underway(first, first, scope, source, script, started, [], started, started.floorHash.None?)
  {
    EvolvesReflexive(first);
    TrailOfOne(scope, script, started);
    OneMoreUnwedged(scope.start, script, [], started);
    StuckIsNotAbove(first);
    hide Good, Evolves, GoesOnAlong, Unwedged, Above, Stuck;
  }

  lemma UnderwayIsReady(first: Record, now: Record, scope: Scope, source: Source, script: nat -> Turn, started: Coverage,
                        asked: seq<Coverage>, progress: Coverage, restarted: bool)
    requires Underway(first, now, scope, source, script, started, asked, progress, restarted)
    ensures Good(now, source) && Mirrors(now, progress) && progress.next.Some? && progress.page > 0
    ensures Fixed(scope, now, source) && (restarted ==> progress.floorHash.None?)
    ensures now.start == scope.start
  {
    hide Good, Evolves, Mirrors, GoesOnAlong, Unwedged, Above, Stuck;
  }

  /** An iteration that does not end the run. */
  lemma RunGoesOn(first: Record, before: Record, after: Record, scope: Scope, source: Source, script: nat -> Turn,
                  started: Coverage, asked: seq<Coverage>, p: Coverage, restarted: bool,
                  p2: Coverage, restarted2: bool, verdict: Option<PageResult>)
    requires Underway(first, before, scope, source, script, started, asked, p, restarted)
    requires Turned(before, after, source, script(|asked|), p, restarted, p2, restarted2, None, verdict)
    requires GoesOn(scope, p, script(|asked|), p2)
    requires !Stuck(before) && (Wedges(scope.start, p, script(|asked|)) ==> Stuck(after))
    ensures Underway(first, after, scope, source, script, started, asked + [p], p2, restarted2)
    ensures Closer(p, restarted, p2, restarted2) || (restarted2 && Replaces(script(|asked|)))
  {
    TurnGoesOn(before, after, scope, source, script(|asked|), p, restarted, p2, restarted2, verdict);
    EvolvesTransitive(first, before, after);
    TrailGrows(scope, script, asked, p, p2);
    OneMoreUnwedged(scope.start, script, asked, p);
    StuckIsNotAbove(before);
    hide Good, Evolves, Mirrors, Fixed, GoesOn, GoesOnAlong, Unwedged, Wedges, Above, Stuck, Turned, Replaces, Closer;
    assert ((asked + [p]) + [p2])[0] == (asked + [p])[0];
  }

  /** An iteration that ends the run. */
  lemma RunEnds(first: Record, before: Record, after: Record, scope: Scope, source: Source, script: nat -> Turn,
                started: Coverage, asked: seq<Coverage>, p: Coverage, restarted: bool,
                p2: Coverage, restarted2: bool, verdict: Option<PageResult>, o: Outcome)
    requires Underway(first, before, scope, source, script, started, asked, p, restarted)
    requires Turned(before, after, source, script(|asked|), p, restarted, p2, restarted2, Some(o), verdict)
    requires Cause(scope, p, script(|asked|), verdict == Some(Uncertified), after, o)
    requires !Wedges(scope.start, p, script(|asked|)) && (Stuck(before) ==> Stuck(after) && StuckOutcome(o))
    ensures RunOver(first, after, scope, source, script, started, asked + [p], verdict == Some(Uncertified), o)
  {
    UnderwayIsReady(first, before, scope, source, script, started, asked, p, restarted);
    TurnEnds(before, after, source, script(|asked|), p, restarted, p2, restarted2, o, verdict);
    EvolvesTransitive(first, before, after);
    EndedEarlier(first, before, after, o);
    OneMoreUnwedged(scope.start, script, asked, p);
    StuckIsNotAbove(before);
    StuckIsNotAbove(after);
    hide Good, Evolves, Fixed, Ended, Cause, Mirrors, GoesOnAlong, Unwedged, Wedges, Above, Stuck, Turned, StuckOutcome;
    assert (asked + [p])[|asked|] == p;
  }

  lemma ReplacementUsed(script: nat -> Turn, turn: nat, calm: nat)
    requires turn >= calm ==> !Replaces(script(turn))
    ensures Replacements(script, turn, calm) == Replacements(script, turn + 1, calm) + if Replaces(script(turn)) then 1 else 0
  {
  }

  lemma StuckIsNotAbove(r: Record)
    ensures Stuck(r) ==> !Above(r)
  {
  }

  lemma TrailOfOne(scope: Scope, script: nat -> Turn, p: Coverage)
    ensures GoesOnAlong(scope, script, [] + [p])
  {
  }

  lemma TrailGrows(scope: Scope, script: nat -> Turn, asked: seq<Coverage>, p: Coverage, p2: Coverage)
    requires GoesOnAlong(scope, script, asked + [p]) && GoesOn(scope, p, script(|asked|), p2)
    ensures GoesOnAlong(scope, script, (asked + [p]) + [p2])
  {
    hide GoesOn;
    var all, more := asked + [p], (asked + [p]) + [p2];
    forall i: nat | i + 1 < |more| ensures GoesOn(scope, more[i], script(i), more[i + 1]) {
      assert i < |asked| ==> more[i] == all[i] && more[i + 1] == all[i + 1];
    }
  }

  /** What an iteration that goes on leaves. */
  lemma TurnGoesOn(before: Record, after: Record, scope: Scope, source: Source, turn: Turn, p: Coverage, restarted: bool,
                   p2: Coverage, restarted2: bool, verdict: Option<PageResult>)
    requires Turned(before, after, source, turn, p, restarted, p2, restarted2, None, verdict) && Fixed(scope, before, source)
    ensures Good(after, source) && Evolves(before, after) && Mirrors(after, p2) && p2.next.Some?
    ensures Fixed(scope, after, source) && before.start == scope.start
    ensures 0 < p2.page <= p.page && (restarted2 ==> p2.floorHash.None?)
    ensures Closer(p, restarted, p2, restarted2) || (restarted2 && Replaces(turn))
    ensures Above(before) ==> (Above(after) <==> !Wedges(before.start, p, turn))
  {
    GoodRow(after, source);
    hide Good, Evolves;
  }

  /** What an iteration that ends leaves. */
  lemma TurnEnds(before: Record, after: Record, source: Source, turn: Turn, p: Coverage, restarted: bool,
                 p2: Coverage, restarted2: bool, o: Outcome, verdict: Option<PageResult>)
    requires Turned(before, after, source, turn, p, restarted, p2, restarted2, Some(o), verdict)
    ensures Good(after, source) && Evolves(before, after) && Ended(before, after, o) && !o.UpToDate?
    ensures PageNeverGrows(p, after)
    ensures source.Linked() ==> verdict != Some(Uncertified)
    ensures Above(before) ==> (Above(after) <==> !Wedges(before.start, p, turn)) && o != Failed(CursorBelowFloor)
  {
    hide Good, Evolves;
  }

  lemma EndedEarlier(first: Record, before: Record, after: Record, o: Outcome)
    requires Evolves(first, before) && Ended(before, after, o)
    ensures Ended(first, after, o)
  {
  }

  /** A full cycle leaves a walkable cursor exactly when its target is not below the scope's start. */
  lemma FullCycleAboveIff(r: Record, target: Block, page: nat)
    requires BeginCycle(r, None, target, None, Below(r.start), page).Some?
    ensures var s := BeginCycle(r, None, target, None, Below(r.start), page).value;
      && (Above(s) <==> target.height >= r.start)
      && (Stuck(s) <==> target.height < r.start)
  {
  }
}
