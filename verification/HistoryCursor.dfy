/**
  The durable cursor: what a coverage row that is not complete says about the stored facts, kept by
  every operation the backfill performs, in any order and across crashes.
 */
module HistoryCursor {
  import opened Wrappers
  import opened HistoryState
  import opened Certification
  import opened Agreement
  import opened HistorySteps

  /** Pages are fetched newest first and recorded oldest first. */
  function Reverse(rows: seq<Fact>): (out: seq<Fact>)
    ensures |out| == |rows|
    ensures forall i | 0 <= i < |rows| :: out[i] == rows[|rows| - 1 - i]
    ensures forall f :: f in out <==> f in rows
  {
    var out := seq(|rows|, i requires 0 <= i < |rows| => rows[|rows| - 1 - i]);
    assert forall i | 0 <= i < |rows| :: rows[i] == out[|rows| - 1 - i];
    out
  }

  lemma ReverseTwice(rows: seq<Fact>)
    ensures Reverse(Reverse(rows)) == rows
  {
  }

  /** `checked_sub(1)`. */
  function Below(height: nat): Option<nat> {
    if height == 0 then None else Some(height - 1)
  }

  // ---------------------------------------------------------------- the invariants

  /** A floor without a hash lies just below the start; one with a hash does too, or is certified. */
  ghost predicate FloorGood(r: Record, floorHash: Option<Hash>, floorHeight: Option<nat>) {
    match floorHash
    case None => floorHeight == Below(r.start)
    case Some(h) =>
      && floorHeight.Some?
      && (floorHeight == Below(r.start)
          || (h in r.certified && r.certified[h].height == floorHeight.value))
  }

  /** The stored facts hold the target's ancestry down to exactly the block above the cursor. */
  ghost predicate CursorLinked(r: Record, row: Coverage) {
    row.next.Some? && exists walk :: IsWalk(r.facts, walk, row.target, row.next.value)
  }

  ghost predicate CertifiedAt(r: Record, b: Block) {
    b.hash in r.certified && r.certified[b.hash].height == b.height
  }

  ghost predicate CursorInv(r: Record) {
    r.coverage.Some? ==>
      var row := r.coverage.value;
      && (row.covered.Some? ==> CertifiedAt(r, row.covered.value))
      && row.target.height <= MAX_HEIGHT && row.page <= MAX_HEIGHT
      && (row.status == Complete ==> row.covered == Some(row.target))
      && (row.status != Complete ==> CursorLinked(r, row))
      && (Quarantine(r) ==> HasConflict(r))
  }

  ghost predicate FloorInv(r: Record) {
    r.coverage.Some? && r.coverage.value.status != Complete ==>
      FloorGood(r, r.coverage.value.floorHash, r.coverage.value.floorHeight)
  }

  // ---------------------------------------------------------------- the arguments the backfill passes

  /** The cursor after a page whose oldest block is `oldest`. */
  predicate NextBelow(oldest: Fact, next: Option<Block>) {
    next.Some? ==> oldest.height > 0 && next.value == Block(oldest.previous, oldest.height - 1)
  }

  /** A full cycle starts above the scope's start, an extension above its own covered tip. */
  predicate BeginFits(r: Record, covered: Option<Block>, floorHash: Option<Hash>, floorHeight: Option<nat>) {
    || (covered.None? && floorHash.None? && floorHeight == Below(r.start))
    || (covered.Some? && covered == CoveredOf(r)
        && floorHash == Some(covered.value.hash) && floorHeight == Some(covered.value.height))
  }

  ghost predicate Fits(r: Record, step: Step) {
    match step
    case Begin(covered, target, floorHash, floorHeight, page) => BeginFits(r, covered, floorHash, floorHeight)
    case Page(facts, expected, next) =>
      facts != [] ==> Continues(Reverse(facts), expected) && NextBelow(facts[0], next)
    case Fail(_, error) => error != HISTORY_CONFLICT
    case _ => true
  }

  /** The floor of a join is the parent the joined block's proof recorded. */
  ghost predicate FloorFits(r: Record, step: Step) {
    step.Floor? ==> FloorGood(r, step.floorHash, step.floorHeight)
  }

  // ---------------------------------------------------------------- preservation

  lemma KeptWalk(r: Record, s: Record, row: Coverage)
    requires Keeps(r, s) && CursorLinked(r, row)
    ensures CursorLinked(s, row)
  {
    var walk :| IsWalk(r.facts, walk, row.target, row.next.value);
    assert IsWalk(s.facts, walk, row.target, row.next.value);
  }

  lemma NewCycleIsLinked(r: Record, row: Coverage)
    requires row.next == Some(row.target)
    ensures CursorLinked(r, row)
  {
    assert IsWalk(r.facts, [], row.target, row.target);
  }

  lemma PageLinks(r: Record, row: Coverage, i: Record, page: seq<Fact>, expected: Block, next: Block)
    requires CursorLinked(r, row) && row.next == Some(expected)
    requires Continues(Reverse(page), expected) && NextBelow(page[0], Some(next))
    requires forall f | f in r.facts || f in page :: f in i.facts
    ensures CursorLinked(i, row.(next := Some(next)))
  {
    hide IsWalk, Linked;
    var walk :| IsWalk(r.facts, walk, row.target, expected);
    var rows := Reverse(page);
    assert Stored(i.facts, rows);
    hide Stored, Reverse, Continues;
    WalkExtends(r.facts, i.facts, walk, rows, row.target, expected);
    assert IsWalk(i.facts, walk + rows, row.target, next);
  }

  lemma PageKeepsCursor(r: Record, page: seq<Fact>, expected: Block, next: Option<Block>)
    requires StoreInv(r) && CursorInv(r) && Fits(r, Page(page, expected, next))
    ensures CursorInv(RecordPage(r, page, expected, next).0)
  {
    CommittedPage(r, page, expected, next);
    PageKeeps(r, page, expected, next);
    var (s, result) := RecordPage(r, page, expected, next);
    if result.Committed() {
      var row, i := r.coverage.value, InsertAll(r, page);
      InsertAllGrows(r, page);
      if result.Quarantined? {
        KeptWalk(r, s, row);
      } else if next.None? {
        GrowingFactsKeepSound(r, i);
        CommitKeepsStoreInv(i, s.coverage.value);
      } else {
        PageLinks(r, row, i, page, expected, next.value);
        var walk :| IsWalk(i.facts, walk, row.target, next.value);
        assert IsWalk(s.facts, walk, s.coverage.value.target, next.value);
      }
    }
  }

  lemma StepKeepsCursor(r: Record, step: Step)
    requires StoreInv(r) && CursorInv(r) && Fits(r, step)
    ensures CursorInv(Apply(r, step))
  {
    var s := Apply(r, step);
    match step
    case Page(facts, expected, next) => PageKeepsCursor(r, facts, expected, next);
    case Begin(_, _, _, _, _) =>
      if s != r {
        NewCycleIsLinked(s, s.coverage.value);
      }
    case _ =>
      if r.coverage.Some? && r.coverage.value.status != Complete {
        var row := r.coverage.value;
        var walk :| IsWalk(r.facts, walk, row.target, row.next.value);
        assert IsWalk(s.facts, walk, row.target, row.next.value);
      }
  }

  lemma StepKeepsFloor(r: Record, step: Step)
    requires StoreInv(r) && CursorInv(r) && FloorInv(r) && Fits(r, step) && FloorFits(r, step)
    ensures FloorInv(Apply(r, step))
  {
    match step
    case Page(facts, expected, next) =>
      CommittedPage(r, facts, expected, next);
      PageKeeps(r, facts, expected, next);
    case _ =>
  }

  ghost predicate AllFit(r: Record, steps: seq<Step>, honest: bool)
    decreases |steps|
  {
    steps != [] ==>
      && Fits(r, steps[0]) && (honest ==> FloorFits(r, steps[0]))
      && AllFit(Apply(r, steps[0]), steps[1..], honest)
  }

  /** Every interleaving, every crash point. */
  lemma {:induction false} CursorSurvivesEveryRun(r: Record, steps: seq<Step>, honest: bool)
    requires StoreInv(r) && CursorInv(r) && (honest ==> FloorInv(r)) && AllFit(r, steps, honest)
    ensures var s := Play(r, steps);
      StoreInv(s) && CursorInv(s) && (honest ==> FloorInv(s))
    decreases |steps|
  {
    if steps != [] {
      StepKeepsStoreInv(r, steps[0]);
      StepKeepsCursor(r, steps[0]);
      if honest {
        StepKeepsFloor(r, steps[0]);
      }
      CursorSurvivesEveryRun(Apply(r, steps[0]), steps[1..], honest);
    }
  }

  /** The covered tip moves only when a page completes a cycle, and then to that cycle's target. */
  lemma CoveredTipMovesOnlyAtCompletion(r: Record, step: Step)
    requires StoreInv(r) && CursorInv(r) && Fits(r, step)
    ensures var s := Apply(r, step);
      CoveredOf(s) != CoveredOf(r) ==>
        && step.Page? && s.coverage.Some? && s.coverage.value.status == Complete
        && CoveredOf(s) == Some(r.coverage.value.target)
        && CertifiedAt(s, r.coverage.value.target)
  {
    StepKeepsCursor(r, step);
    if step.Page? {
      CommittedPage(r, step.facts, step.expected, step.next);
    }
  }

  // ---------------------------------------------------------------- the two proofs agree

  /** When the backfill submits a page as the last one of its cycle. */
  predicate ReachesFloor(r: Record, row: Coverage, oldest: Fact) {
    || oldest.hash in r.certified
    || (oldest.height == (if row.floorHeight.Some? then row.floorHeight.value + 1 else 0)
        && (row.floorHash.Some? ==> oldest.previous == row.floorHash.value))
  }

  /** The page ends its cycle at a certified block, or at a floor that is proved. */
  ghost predicate EndsCycle(r: Record, row: Coverage, oldest: Fact) {
    || oldest.hash in r.certified
    || (FloorGood(r, row.floorHash, row.floorHeight) && ReachesFloor(r, row, oldest))
  }

  lemma FloorAnchors(r: Record, s: Record, row: Coverage, oldest: Fact)
    requires StoreInv(r) && Keeps(r, s)
    requires EndsCycle(r, row, oldest)
    requires oldest in s.facts && Single(s.facts)
    ensures Anchored(s, oldest) && oldest.height >= s.start
  {
    if oldest.hash in r.certified {
      assert Backed(r, oldest.hash, r.certified[oldest.hash]) && Rests(r, r.certified[oldest.hash]);
    } else if row.floorHash.Some? && row.floorHash.value in r.certified {
      assert Rests(r, r.certified[row.floorHash.value]);
    }
  }

  /**
    The last page of a cycle, whether it reaches the start, the covered tip or a certified ancestor,
    is never refused by the trigger: it completes, or a conflict is retained.
   */
  lemma LastPageIsAccepted(r: Record, page: seq<Fact>, expected: Block)
    requires StoreInv(r) && CursorInv(r) && AtCursor(r, expected)
    requires page != [] && HeightsFit(page) && Continues(Reverse(page), expected)
    requires EndsCycle(r, r.coverage.value, page[0])
    ensures var (s, result) := RecordPage(r, page, expected, None);
      && (result.Recorded? || result.Quarantined?)
      && (result.Recorded? <==> Single(InsertAll(r, page).facts))
      && (result.Recorded? ==> s.coverage.value.status == Complete && CertifiedAt(s, r.coverage.value.target))
  {
    InsertAllGrows(r, page);
    NoConflictMeansSingle(InsertAll(r, page));
    if HasConflict(InsertAll(r, page)) {
      LastPageResult(r, page, expected);
    } else {
      LastPageCompletes(r, page, expected);
    }
  }

  lemma LastPageCompletes(r: Record, page: seq<Fact>, expected: Block)
    requires StoreInv(r) && CursorInv(r) && AtCursor(r, expected)
    requires page != [] && HeightsFit(page) && Continues(Reverse(page), expected)
    requires EndsCycle(r, r.coverage.value, page[0]) && !HasConflict(InsertAll(r, page))
    ensures var (s, result) := RecordPage(r, page, expected, None);
      result.Recorded? && s.coverage.value.status == Complete && CertifiedAt(s, r.coverage.value.target)
  {
    hide RecordPage, Accepts, Commit, CursorInv, EndsCycle, Continues, Reverse, Sound, ConflictsExact;
    var row, i := r.coverage.value, InsertAll(r, page);
    InsertAllGrows(r, page);
    hide InsertAll;
    GrowingFactsKeepSound(r, i);
    LastPageIsWalked(r, i, page, expected);
    LastPageResult(r, page, expected);
    var done := Advanced(row, expected, None, false, |i.facts| - |r.facts|);
    CommittedCoverage(i, done);
    CommitKeepsStoreInv(i, done);
  }

  lemma CommittedCoverage(i: Record, row: Coverage)
    ensures Commit(i, row).coverage == Some(row)
  {
  }

  lemma LastPageResult(r: Record, page: seq<Fact>, expected: Block)
    requires AtCursor(r, expected) && Shape(r.coverage.value) && page != [] && HeightsFit(page)
    ensures var i := InsertAll(r, page);
      var (s, result) := RecordPage(r, page, expected, None);
      && (HasConflict(i) ==> result.Quarantined?)
      && (!HasConflict(i) && Accepts(i, r.coverage.value.target) ==>
            result.Recorded? && s == Commit(i, Advanced(r.coverage.value, expected, None, false, |i.facts| - |r.facts|)))
  {
    PageConflictIsConflict(InsertAll(r, page), page);
    hide InsertAll, Accepts, PageConflict, HasConflict;
  }

  lemma LastPageIsWalked(r: Record, i: Record, page: seq<Fact>, expected: Block)
    requires StoreInv(r) && CursorInv(r) && AtCursor(r, expected)
    requires page != [] && Continues(Reverse(page), expected)
    requires EndsCycle(r, r.coverage.value, page[0])
    requires Keeps(r, i) && Sound(i) && ConflictsExact(i) && !HasConflict(i) && forall f | f in page :: f in i.facts
    ensures Accepts(i, r.coverage.value.target)
  {
    var row := r.coverage.value;
    hide IsWalk, Linked;
    var walk :| IsWalk(r.facts, walk, row.target, expected);
    var last := Reverse(page);
    assert Stored(i.facts, last);
    NoConflictMeansSingle(i);
    FloorAnchors(r, i, row, page[0]);
    hide Stored, Reverse, StoreInv, EndsCycle, CursorInv, Keeps, Sound, ConflictsExact, HasConflict, Single,
      Anchored, Accepts;
    WalkExtends(r.facts, i.facts, walk, last, row.target, expected);
    var rows := walk + last;
    LinkedDescends(rows, |rows| - 1);
    StoredChainIsAccepted(i, rows, row.target);
  }

  lemma {:induction false} LinkedDescends(rows: seq<Fact>, i: nat)
    requires Linked(rows) && i < |rows|
    ensures rows[0].height == rows[i].height + i
  {
    if i > 0 {
      LinkedDescends(rows, i - 1);
      assert rows[i - 1 + 1].height == rows[i - 1].height - 1;
    }
  }
}
