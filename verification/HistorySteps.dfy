/**
  The store operations of one history scope as transitions, and what holds over every sequence of
  them. A crash between two operations is a sequence that stops; a transaction that fails or is
  refused leaves the record as it was.
 */
module HistorySteps {
  import opened Wrappers
  import opened HistoryState
  import opened Certification
  import opened Agreement

  // ---------------------------------------------------------------- the operations

  predicate AtCursor(r: Record, expected: Block) {
    r.coverage.Some? && r.coverage.value.status == Running && r.coverage.value.next == Some(expected)
  }

  predicate HeightsFit(page: seq<Fact>) {
    forall f | f in page :: f.height <= MAX_HEIGHT
  }

  function RowsOf(r: Record): nat {
    if r.coverage.Some? then r.coverage.value.rows else 0
  }

  function CoveredOf(r: Record): Option<Block> {
    if r.coverage.Some? then r.coverage.value.covered else None
  }

  /** A live event: recorded unless its height does not fit the column. */
  function RecordLive(r: Record, f: Fact): Record {
    if f.height <= MAX_HEIGHT then Insert(r, f) else r
  }

  /** `begin_history_cycle`; `None` when the statement is refused. */
  function BeginCycle(r: Record, covered: Option<Block>, target: Block, floorHash: Option<Hash>,
                      floorHeight: Option<nat>, page: nat): Option<Record>
  {
    var row := Coverage(if covered.Some? then covered else CoveredOf(r), target, floorHash, floorHeight,
                        Some(target), Running, RowsOf(r), page, None, false);
    if FitsColumn(Some(target.height)) && FitsColumn(floorHeight) && FitsColumn(Some(page))
       && (covered.Some? ==> FitsColumn(Some(covered.value.height))) && Shape(row)
    then Some(r.(coverage := Some(row)))
    else None
  }

  /** `set_history_floor`; `None` when no running row stands at the cursor. */
  function SetFloor(r: Record, cursor: Hash, floorHash: Option<Hash>, floorHeight: Option<nat>): Option<Record> {
    if r.coverage.None? then None
    else
      var row := r.coverage.value.(floorHash := floorHash, floorHeight := floorHeight);
      if row.next.Some? && row.next.value.hash == cursor && row.status == Running && FitsColumn(floorHeight) && Shape(row)
      then Some(r.(coverage := Some(row)))
      else None
  }

  datatype PageResult =
    | EmptyPage
    | BadHeight
    | CursorChanged
    | Malformed
    | Uncertified
    | Quarantined(inserted: nat)
    | Recorded(inserted: nat)
  {
    predicate Committed() {
      Quarantined? || Recorded?
    }
  }

  /** The coverage row a page transaction writes. */
  function Advanced(row: Coverage, expected: Block, next: Option<Block>, conflict: bool, inserted: nat): Coverage {
    var complete := next.None? && !conflict;
    row.(next := if conflict then Some(expected) else next,
         status := if conflict then Error else if complete then Complete else Running,
         covered := if complete then Some(row.target) else row.covered,
         rows := row.rows + inserted,
         lastError := if conflict then Some(HISTORY_CONFLICT) else None,
         finished := complete)
  }

  /** `record_history_page`, with the certification trigger on its update. */
  function RecordPage(r: Record, page: seq<Fact>, expected: Block, next: Option<Block>): (Record, PageResult)
  {
    if page == [] then (r, EmptyPage)
    else if !HeightsFit(page) || (next.Some? && next.value.height > MAX_HEIGHT) then (r, BadHeight)
    else
      var i := InsertAll(r, page);
      var inserted := |i.facts| - |r.facts|;
      var conflict := PageConflict(i, page) || (next.None? && HasConflict(i));
      if !AtCursor(r, expected) then (r, CursorChanged)
      else
        var row := Advanced(r.coverage.value, expected, next, conflict, inserted);
        if row.status == Complete && !Accepts(i, row.target) then (r, Uncertified)
        else if !Shape(row) then (r, Malformed)
        else
          (Commit(i, row), if conflict then Quarantined(inserted) else Recorded(inserted))
  }

  /** The coverage row is written; a completing one certifies its target in the same transaction. */
  function Commit(i: Record, row: Coverage): Record {
    var s := i.(coverage := Some(row));
    if row.status == Complete then Certify(s, row.target.hash) else s
  }

  function Resize(r: Record, page: nat, error: string): Option<Record> {
    if r.coverage.Some? && r.coverage.value.status == Running && FitsColumn(Some(page))
       && Shape(r.coverage.value.(page := page))
    then Some(r.(coverage := Some(r.coverage.value.(page := page, lastError := Some(error)))))
    else None
  }

  function Resume(r: Record): Option<Record> {
    if r.coverage.Some? && r.coverage.value.status in {Error, Superseded} && r.coverage.value.next.Some?
    then Some(r.(coverage := Some(r.coverage.value.(status := Running, lastError := None))))
    else None
  }

  /** `settle_history_failure`: the row it leaves; `None` when the scope has no row. */
  function Settle(r: Record, current: bool, error: string): Option<Record> {
    if r.coverage.None? then None
    else if r.coverage.value.status != Running then Some(r)
    else Some(r.(coverage := Some(r.coverage.value.(
                  status := if current then Error else Superseded,
                  lastError := Some(if current then error else NOT_ACTIVE)))))
  }

  function Supersede(r: Record, reason: string): Record {
    if r.coverage.Some? && r.coverage.value.status in {Running, Error}
    then r.(coverage := Some(r.coverage.value.(status := Superseded, lastError := Some(reason))))
    else r
  }

  // ---------------------------------------------------------------- runs

  datatype Step =
    | Live(fact: Fact)
    | Begin(covered: Option<Block>, target: Block, floorHash: Option<Hash>, floorHeight: Option<nat>, pageBlocks: nat)
    | Floor(cursor: Hash, floorHash: Option<Hash>, floorHeight: Option<nat>)
    | Page(facts: seq<Fact>, expected: Block, next: Option<Block>)
    | Shrink(pageBlocks: nat, error: string)
    | Reopen
    | Fail(current: bool, error: string)
    | Retire(reason: string)

  function Apply(r: Record, step: Step): Record {
    match step
    case Live(fact) => RecordLive(r, fact)
    case Begin(covered, target, floorHash, floorHeight, page) =>
      BeginCycle(r, covered, target, floorHash, floorHeight, page).Or(r)
    case Floor(cursor, floorHash, floorHeight) => SetFloor(r, cursor, floorHash, floorHeight).Or(r)
    case Page(facts, expected, next) => RecordPage(r, facts, expected, next).0
    case Shrink(page, error) => Resize(r, page, error).Or(r)
    case Reopen => Resume(r).Or(r)
    case Fail(current, error) => Settle(r, current, error).Or(r)
    case Retire(reason) => Supersede(r, reason)
  }

  function Play(r: Record, steps: seq<Step>): Record
    decreases |steps|
  {
    if steps == [] then r else Play(Apply(r, steps[0]), steps[1..])
  }

  /** A row suspended because facts disagree. */
  predicate Quarantine(r: Record) {
    r.coverage.Some? && r.coverage.value.status == Error && r.coverage.value.lastError == Some(HISTORY_CONFLICT)
  }

  // ---------------------------------------------------------------- soundness in every reachable record

  ghost predicate StoreInv(r: Record) {
    && ConflictsExact(r)
    && Sound(r)
    && (r.coverage.Some? ==> Shape(r.coverage.value))
  }

  lemma GrowingFactsKeepSound(r: Record, s: Record)
    requires Sound(r) && s.start == r.start && s.certified == r.certified && forall f | f in r.facts :: f in s.facts
    ensures Sound(s)
  {
    forall h | h in s.certified ensures Backed(s, h, s.certified[h]) && Rests(s, s.certified[h]) {
      assert Backed(r, h, r.certified[h]) && Rests(r, r.certified[h]);
    }
  }

  lemma CommitKeepsStoreInv(i: Record, row: Coverage)
    requires ConflictsExact(i) && Sound(i) && Shape(row)
    requires row.status == Complete ==> Accepts(i, row.target) && !HasConflict(i)
    ensures StoreInv(Commit(i, row))
    ensures row.status == Complete ==> var c := Commit(i, row).certified;
      row.target.hash in c && c[row.target.hash].height == row.target.height
  {
    var s := i.(coverage := Some(row));
    GrowingFactsKeepSound(i, s);
    if row.status == Complete {
      SameRowsSameWalk(i, s, row.target);
      CertifyKeepsSound(s, row.target);
    }
  }

  /** What a committed page wrote. */
  lemma CommittedPage(r: Record, page: seq<Fact>, expected: Block, next: Option<Block>)
    ensures var (s, result) := RecordPage(r, page, expected, next);
      var i := InsertAll(r, page);
      if !result.Committed() then s == r
      else
        && AtCursor(r, expected) && page != []
        && |i.facts| == |r.facts| + result.inserted
        && var row := Advanced(r.coverage.value, expected, next, result.Quarantined?, result.inserted);
        && s == Commit(i, row)
        && (row.status == Complete <==> next.None? && result.Recorded?)
        && (row.status == Complete ==> Accepts(i, row.target) && !HasConflict(i))
  {
    InsertAllGrows(r, page);
  }

  lemma PageKeepsStoreInv(r: Record, page: seq<Fact>, expected: Block, next: Option<Block>)
    requires StoreInv(r)
    ensures StoreInv(RecordPage(r, page, expected, next).0)
  {
    CommittedPage(r, page, expected, next);
    var result := RecordPage(r, page, expected, next).1;
    if result.Committed() {
      var i := InsertAll(r, page);
      InsertAllGrows(r, page);
      GrowingFactsKeepSound(r, i);
      CommitKeepsStoreInv(i, Advanced(r.coverage.value, expected, next, result.Quarantined?, result.inserted));
    }
  }

  lemma PageIsNeverMalformed(r: Record, page: seq<Fact>, expected: Block, next: Option<Block>)
    requires r.coverage.Some? ==> Shape(r.coverage.value)
    ensures !RecordPage(r, page, expected, next).1.Malformed?
  {
  }

  /** The walk reads facts, proofs and the start height, not the coverage row. */
  lemma {:induction false} WalkReadsOnlyFacts(r: Record, s: Record, working: seq<Fact>)
    requires s == r.(coverage := s.coverage)
    ensures Walk(r, working) == Walk(s, working)
    decreases if working == [] then 0 else Top(working) + 1
  {
    if working != [] {
      LevelReadsOnlyFacts(r, s, working);
      NextLevelMembers(r, working);
      WalkReadsOnlyFacts(r, s, NextLevel(r, working));
    }
  }

  lemma {:induction false} LevelReadsOnlyFacts(r: Record, s: Record, working: seq<Fact>)
    requires s == r.(coverage := s.coverage)
    ensures NextLevel(r, working) == NextLevel(s, working)
  {
    if working != [] {
      LevelReadsOnlyFacts(r, s, working[1..]);
    }
  }

  lemma SameRowsSameWalk(r: Record, s: Record, target: Block)
    requires s == r.(coverage := s.coverage)
    ensures Path(r, target.hash) == Path(s, target.hash)
    ensures Accepts(r, target) <==> Accepts(s, target)
  {
    WalkReadsOnlyFacts(r, s, Lookup(r.facts, target.hash, None));
  }

  lemma StepKeepsStoreInv(r: Record, step: Step)
    requires StoreInv(r)
    ensures StoreInv(Apply(r, step))
  {
    match step
    case Live(fact) =>
      InsertKeepsConflictsExact(r, fact);
      GrowingFactsKeepSound(r, Apply(r, step));
    case Page(facts, expected, next) => PageKeepsStoreInv(r, facts, expected, next);
    case _ => GrowingFactsKeepSound(r, Apply(r, step));
  }

  /** Whatever was recorded, in whatever order, by honest sources or not. */
  lemma {:induction false} EveryReachableRecordIsSound(r: Record, steps: seq<Step>)
    requires StoreInv(r)
    ensures StoreInv(Play(r, steps))
    decreases |steps|
  {
    if steps != [] {
      StepKeepsStoreInv(r, steps[0]);
      EveryReachableRecordIsSound(Apply(r, steps[0]), steps[1..]);
    }
  }

  lemma EmptyRecordIsSound(start: nat)
    ensures StoreInv(EmptyRecord(start))
  {
  }

  // ---------------------------------------------------------------- proof is never lost

  ghost predicate Keeps(r: Record, s: Record) {
    && s.start == r.start
    && (forall f | f in r.facts :: f in s.facts)
    && r.conflicts <= s.conflicts
    && (forall h | h in r.certified :: h in s.certified && s.certified[h] == r.certified[h])
  }

  lemma CertifyKeeps(r: Record, target: Block)
    requires Accepts(r, target)
    ensures Keeps(r, Certify(r, target.hash))
  {
    AcceptedPathIsChain(r, target);
    AddProofsMeaning(r.certified, Path(r, target.hash));
  }

  lemma PageKeeps(r: Record, page: seq<Fact>, expected: Block, next: Option<Block>)
    ensures Keeps(r, RecordPage(r, page, expected, next).0)
  {
    CommittedPage(r, page, expected, next);
    InsertAllGrows(r, page);
    hide RecordPage, InsertAll, Accepts, PageConflict;
    var i := InsertAll(r, page);
    var (s, result) := RecordPage(r, page, expected, next);
    if result.Committed() {
      var row := Advanced(r.coverage.value, expected, next, result.Quarantined?, result.inserted);
      if row.status == Complete {
        SameRowsSameWalk(i, i.(coverage := Some(row)), row.target);
        CertifyKeeps(i.(coverage := Some(row)), row.target);
      }
    }
  }

  /** Facts, conflicts and proofs are only ever added to. */
  lemma {:induction false} ProofIsNeverLost(r: Record, steps: seq<Step>)
    ensures Keeps(r, Play(r, steps))
    decreases |steps|
  {
    if steps != [] {
      if steps[0].Page? {
        PageKeeps(r, steps[0].facts, steps[0].expected, steps[0].next);
      }
      ProofIsNeverLost(Apply(r, steps[0]), steps[1..]);
    }
  }

  // ---------------------------------------------------------------- a retained conflict bars completion

  lemma StepWithConflictCompletesNothing(r: Record, step: Step)
    requires HasConflict(r)
    ensures var s := Apply(r, step);
      && HasConflict(s) && s.certified == r.certified
      && (s.coverage.Some? && s.coverage.value.status == Complete ==> s.coverage == r.coverage)
  {
    match step
    case Page(facts, expected, next) => InsertAllGrows(r, facts);
    case _ =>
  }

  /**
    No sequence of operations completes a cycle or certifies a block once the scope retains a
    conflict: not after the row is superseded, resumed, restarted or given a new target.
   */
  lemma {:induction false} ConflictBarsCompletion(r: Record, steps: seq<Step>)
    requires HasConflict(r)
    ensures var s := Play(r, steps);
      && HasConflict(s) && s.certified == r.certified
      && (s.coverage.Some? && s.coverage.value.status == Complete ==> s.coverage == r.coverage)
    decreases |steps|
  {
    if steps != [] {
      StepWithConflictCompletesNothing(r, steps[0]);
      ConflictBarsCompletion(Apply(r, steps[0]), steps[1..]);
    }
  }

  /** A conflicting page commits its facts, keeps the cursor and suspends the row. */
  lemma ConflictingPageIsRetained(r: Record, page: seq<Fact>, expected: Block, next: Option<Block>)
    requires ConflictsExact(r) && AtCursor(r, expected) && Shape(r.coverage.value)
    requires page != [] && HeightsFit(page) && (next.Some? ==> next.value.height <= MAX_HEIGHT)
    requires exists f, g :: f in page && g in r.facts + page && f.hash == g.hash && f != g
    ensures var (s, result) := RecordPage(r, page, expected, next);
      && result.Quarantined?
      && (forall f | f in page :: f in s.facts)
      && HasConflict(s)
      && s.coverage.value.next == Some(expected)
      && s.coverage.value.status == Error && s.coverage.value.lastError == Some(HISTORY_CONFLICT)
      && s.coverage.value.covered == r.coverage.value.covered && s.certified == r.certified
  {
    InsertAllGrows(r, page);
    var i := InsertAll(r, page);
    var f, g :| f in page && g in r.facts + page && f.hash == g.hash && f != g;
    ClashIsFound(i, page, f, g);
    QuarantineResult(r, page, expected, next);
    hide RecordPage, InsertAll, PageConflict, ConflictsExact;
  }

  lemma QuarantineResult(r: Record, page: seq<Fact>, expected: Block, next: Option<Block>)
    requires AtCursor(r, expected) && Shape(r.coverage.value) && page != [] && HeightsFit(page)
    requires next.Some? ==> next.value.height <= MAX_HEIGHT
    requires PageConflict(InsertAll(r, page), page)
    ensures var i := InsertAll(r, page);
      var inserted := |i.facts| - |r.facts|;
      RecordPage(r, page, expected, next)
      == (i.(coverage := Some(Advanced(r.coverage.value, expected, next, true, inserted))), Quarantined(inserted))
  {
    hide InsertAll, PageConflict, Accepts;
  }

  lemma ClashIsFound(i: Record, page: seq<Fact>, f: Fact, g: Fact)
    requires ConflictsExact(i) && f in page && f in i.facts && g in i.facts && f.hash == g.hash && f != g
    ensures PageConflict(i, page) && HasConflict(i)
  {
    var a: nat :| a < |i.facts| && i.facts[a] == f;
    var b: nat :| b < |i.facts| && i.facts[b] == g;
    var c := if a < b then (a, b) else (b, a);
    assert Clash(i.facts, c.0, c.1);
    assert c in i.conflicts && i.facts[c.0].hash == f.hash;
  }

  /** Some fact of the page differs from another about the same block. */
  predicate Disagrees(facts: seq<Fact>, page: seq<Fact>) {
    exists f, g :: f in page && g in facts && f.hash == g.hash && f != g
  }

  lemma PageConflictMeaning(i: Record, page: seq<Fact>)
    requires ConflictsExact(i) && forall f | f in page :: f in i.facts
    ensures PageConflict(i, page) <==> Disagrees(i.facts, page)
  {
    if Disagrees(i.facts, page) {
      var f, g :| f in page && g in i.facts && f.hash == g.hash && f != g;
      ClashIsFound(i, page, f, g);
    }
    if PageConflict(i, page) {
      var c, f :| c in i.conflicts && f in page && c.0 < |i.facts| && i.facts[c.0].hash == f.hash;
      assert Clash(i.facts, c.0, c.1);
      assert i.facts[c.0] in i.facts && i.facts[c.1] in i.facts;
      assert f != i.facts[c.0] || f != i.facts[c.1];
    }
  }

  /**
    A page at the cursor is quarantined exactly when one of its own facts is contradicted, or when it is
    the last of its cycle and any two facts of the scope disagree. An old conflict elsewhere stops no other page.
   */
  lemma PageVerdict(r: Record, page: seq<Fact>, expected: Block, next: Option<Block>)
    requires ConflictsExact(r) && AtCursor(r, expected) && Shape(r.coverage.value)
    requires page != [] && HeightsFit(page) && (next.Some? ==> next.value.height <= MAX_HEIGHT)
    ensures var (s, result) := RecordPage(r, page, expected, next);
      && (result.Quarantined? <==>
            || Disagrees(r.facts + page, page)
            || (next.None? && !Single(r.facts + page)))
      && (next.Some? ==> result.Committed())
      && (result.Committed() ==> forall f :: f in s.facts <==> f in r.facts || f in page)
      && (result.Recorded? ==>
            && s.coverage.value.next == next && s.coverage.value.lastError.None?
            && s.coverage.value.status == (if next.None? then Complete else Running))
      && (!result.Committed() ==> s == r)
  {
    var i := InsertAll(r, page);
    InsertAllGrows(r, page);
    PageConflictMeaning(i, page);
    NoConflictMeansSingle(i);
    SameFactsAgree(i.facts, r.facts + page, page);
    PageConflictIsConflict(i, page);
    CommittedPage(r, page, expected, next);
    hide InsertAll, PageConflict, Accepts, Disagrees, Single, ConflictsExact, Certify, HeightsFit, HasConflict;
  }

  /** A page is committed, recorded or quarantined, exactly when it fits, stands at the cursor and is not a last page without proof. */
  lemma PageCommitsIff(r: Record, page: seq<Fact>, expected: Block, next: Option<Block>)
    requires ConflictsExact(r) && (r.coverage.Some? ==> Shape(r.coverage.value))
    ensures RecordPage(r, page, expected, next).1.Committed() <==>
      && page != [] && (forall f | f in page :: f.height <= 0x7fff_ffff) && (next.Some? ==> next.value.height <= 0x7fff_ffff)
      && r.coverage.Some? && r.coverage.value.status == Running && r.coverage.value.next == Some(expected)
      && (next.Some? || !Single(r.facts + page) || Accepts(InsertAll(r, page), r.coverage.value.target))
  {
    var i := InsertAll(r, page);
    if page != [] && HeightsFit(page) && (next.Some? ==> next.value.height <= MAX_HEIGHT) && AtCursor(r, expected) {
      PageVerdict(r, page, expected, next);
      InsertAllGrows(r, page);
      NoConflictMeansSingle(i);
      SameFactsAgree(i.facts, r.facts + page, page);
      PageConflictIsConflict(i, page);
    }
    hide InsertAll, PageConflict, Accepts, Disagrees, Single, ConflictsExact, Certify, HasConflict;
  }

  lemma SameFactsAgree(a: seq<Fact>, b: seq<Fact>, page: seq<Fact>)
    requires forall f :: f in a <==> f in b
    ensures Disagrees(a, page) <==> Disagrees(b, page)
    ensures Single(a) <==> Single(b)
  {
  }

  // ---------------------------------------------------------------- the life of the row

  /** The row is not one that the operation may touch. */
  predicate Stale(r: Record, step: Step) {
    var status := if r.coverage.Some? then Some(r.coverage.value.status) else None;
    match step
    case Floor(cursor, _, _) =>
      status != Some(Running) || r.coverage.value.next.None? || r.coverage.value.next.value.hash != cursor
    case Page(_, expected, _) => !AtCursor(r, expected)
    case Shrink(_, _) => status != Some(Running)
    case Fail(_, _) => status != Some(Running)
    case Reopen => status !in {Some(Error), Some(Superseded)}
    case Retire(_) => status !in {Some(Running), Some(Error)}
    case Live(_) => true
    case Begin(_, _, _, _, _) => false
  }

  /** Pages, floors, page sizes and failures only touch a running row that still stands where their writer saw it. */
  lemma StaleStepChangesNoRow(r: Record, step: Step)
    requires Stale(r, step)
    ensures Apply(r, step).coverage == r.coverage
    ensures !step.Live? ==> Apply(r, step) == r
  {
  }

  /** What each operation does to a row that it may touch: the statuses a row goes through, and nothing of its cycle is lost. */
  lemma RowLifecycle(r: Record, step: Step)
    requires r.coverage.Some? && Shape(r.coverage.value)
    ensures var row, s := r.coverage.value, Apply(r, step).coverage;
      && s.Some?
      && (step.Fail? && row.status == Running ==>
            s.value == row.(status := if step.current then Error else Superseded,
                            lastError := Some(if step.current then step.error else NOT_ACTIVE)))
      && (step.Reopen? && row.status in {Error, Superseded} ==> s.value == row.(status := Running, lastError := None))
      && (step.Retire? && row.status in {Running, Error} ==>
            s.value == row.(status := Superseded, lastError := Some(step.reason)))
      && (step.Shrink? && row.status == Running && 0 < step.pageBlocks <= MAX_HEIGHT ==>
            s.value == row.(page := step.pageBlocks, lastError := Some(step.error)))
      && (s.value.status != row.status ==>
            || (step.Begin? && s.value.status == Running)
            || (step.Page? && row.status == Running && s.value.status in {Complete, Error})
            || step.Fail? || step.Reopen? || step.Retire?)
  {
  }

  // ---------------------------------------------------------------- rows are conserved

  /** Facts first inserted by the history pages of a run; a refused page inserts none. */
  function PageInserts(r: Record, steps: seq<Step>): int
    decreases |steps|
  {
    if steps == [] then 0
    else
      var s := Apply(r, steps[0]);
      (if steps[0].Page? then |s.facts| - |r.facts| else 0) + PageInserts(s, steps[1..])
  }

  function LiveInserts(r: Record, steps: seq<Step>): nat
    decreases |steps|
  {
    if steps == [] then 0
    else
      var s := Apply(r, steps[0]);
      (if steps[0].Live? && steps[0].fact !in r.facts && steps[0].fact.height <= MAX_HEIGHT then 1 else 0)
      + LiveInserts(s, steps[1..])
  }

  /** Over restarts, reorganisations, crashes and conflicting pages. */
  lemma {:induction false} RowsRecordedAreConserved(r: Record, steps: seq<Step>)
    ensures RowsOf(Play(r, steps)) == RowsOf(r) + PageInserts(r, steps)
    ensures |Play(r, steps).facts| == |r.facts| + PageInserts(r, steps) + LiveInserts(r, steps)
    decreases |steps|
  {
    if steps != [] {
      var s := Apply(r, steps[0]);
      if steps[0].Page? {
        InsertAllGrows(r, steps[0].facts);
      }
      assert RowsOf(s) == RowsOf(r) + if steps[0].Page? then |s.facts| - |r.facts| else 0;
      RowsRecordedAreConserved(s, steps[1..]);
    }
  }
}
