/**
  Sources whose parent links are committed by the block hash, whatever heights they claim. The walk
  takes the floor of a join from the fetched header, so a false height can put it anywhere; but down
  the committed links the walk must meet the joined block again before it reaches such a floor.

  Hence the trigger never refuses such a source, and the expected start hash is safe: a scope may know
  the hash of its first block, the program compares it only when a cycle ends at a floor without a
  hash, and still no other block is ever certified at the start.
 */
module StartHash {
  import opened Wrappers
  import opened HistoryState
  import opened Certification
  import opened Agreement
  import opened HistorySteps
  import opened HistoryCursor

  // ---------------------------------------------------------------- what a source can be held to

  /** Every fact carries the one header its hash has. */
  ghost predicate Agrees(world: Hash -> Proof, facts: seq<Fact>) {
    forall f | f in facts :: world(f.hash) == Proof(f.previous, f.height)
  }

  /** Every fact names the one parent its hash commits to, at whatever height. */
  ghost predicate Links(world: Hash -> Proof, facts: seq<Fact>) {
    forall f | f in facts :: world(f.hash).previous == f.previous
  }

  /** The block `n` parents below. */
  ghost function Ancestor(world: Hash -> Proof, h: Hash, n: nat): Hash {
    if n == 0 then h else world(Ancestor(world, h, n - 1)).previous
  }

  lemma {:induction false} AncestorSum(world: Hash -> Proof, h: Hash, a: nat, b: nat)
    ensures Ancestor(world, Ancestor(world, h, a), b) == Ancestor(world, h, a + b)
  {
    if b > 0 {
      AncestorSum(world, h, a, b - 1);
    }
  }

  lemma {:induction false} LinkedAncestry(world: Hash -> Proof, rows: seq<Fact>, i: nat)
    requires Linked(rows) && Links(world, rows) && i < |rows|
    ensures rows[i].hash == Ancestor(world, rows[0].hash, i)
    ensures rows[i].previous == Ancestor(world, rows[0].hash, i + 1)
  {
    if i > 0 {
      LinkedAncestry(world, rows, i - 1);
      assert rows[i - 1 + 1].hash == rows[i - 1].previous;
    }
    assert rows[i] in rows;
  }

  // ---------------------------------------------------------------- the invariant

  /** Every certified block at the start height is the expected one. */
  ghost predicate StartsAt(r: Record, start: Option<Hash>) {
    start.Some? ==> forall h | h in r.certified && r.certified[h].height == r.start :: h == start.value
  }

  /** The lowest height of a cycle with this floor. */
  function Base(floorHeight: Option<nat>): nat {
    if floorHeight.Some? then floorHeight.value + 1 else 0
  }

  /** Down the committed links, the block just above the floor is certified: the cycle joined there. */
  ghost predicate JoinedAbove(r: Record, cursor: Block, floorHeight: Option<nat>, world: Hash -> Proof) {
    cursor.height >= Base(floorHeight) && Ancestor(world, cursor.hash, cursor.height - Base(floorHeight)) in r.certified
  }

  /** A floor is the scope's start, a certified block, or below a certified block that the walk must meet again. */
  ghost predicate FloorKnown(r: Record, world: Hash -> Proof) {
    r.coverage.Some? && r.coverage.value.status != Complete && r.coverage.value.next.Some? ==>
      var row := r.coverage.value;
      || (row.floorHash.None? && row.floorHeight == Below(r.start))
      || (row.floorHash.Some? && row.floorHeight.Some? && CertifiedAt(r, Block(row.floorHash.value, row.floorHeight.value)))
      || JoinedAbove(r, row.next.value, row.floorHeight, world)
  }

  ghost predicate StartInv(r: Record, world: Hash -> Proof, start: Option<Hash>) {
    StartsAt(r, start) && FloorKnown(r, world)
  }

  // ---------------------------------------------------------------- the arguments the backfill passes

  ghost predicate FloorFromJoin(r: Record, floorHeight: Option<nat>, world: Hash -> Proof) {
    r.coverage.Some? && r.coverage.value.next.Some? ==> JoinedAbove(r, r.coverage.value.next.value, floorHeight, world)
  }

  /** A page that does not end the cycle stays above the floor; one that does reaches it, at the expected start if it has no hash. */
  ghost predicate PageFits(r: Record, page: seq<Fact>, next: Option<Block>, start: Option<Hash>) {
    r.coverage.Some? && page != [] ==>
      var row := r.coverage.value;
      && (next.Some? && row.floorHeight.Some? ==> next.value.height > row.floorHeight.value)
      && (next.None? ==> ReachesFloor(r, row, page[0]) && (row.floorHash.None? && start.Some? ==> page[0].hash == start.value))
  }

  ghost predicate StartFits(r: Record, step: Step, world: Hash -> Proof, start: Option<Hash>) {
    match step
    case Floor(_, _, floorHeight) => FloorFromJoin(r, floorHeight, world)
    case Page(facts, _, next) => PageFits(r, facts, next, start) && Links(world, facts)
    case _ => true
  }

  // ---------------------------------------------------------------- a completed cycle

  /** The walked path ends at the start only at the cycle's own last block. */
  lemma NewStartIsOldest(i: Record, target: Block, rows: seq<Fact>, p: seq<Fact>, world: Hash -> Proof)
    requires Links(world, i.facts) && ProvenPath(i, target, p)
    requires rows != [] && Stored(i.facts, rows) && Linked(rows)
    requires rows[0].hash == target.hash && rows[0].height == target.height
    requires Anchored(i, rows[|rows| - 1]) && rows[|rows| - 1].height >= i.start
    requires p[|p| - 1].height == i.start && p[|p| - 1].hash !in i.certified
    ensures rows[|rows| - 1].height == i.start && p[|p| - 1].hash == rows[|rows| - 1].hash
  {
    var n, j := |rows| - 1, |p| - 1;
    LinkedDescends(rows, n);
    ChainHeights(i, p);
    assert n <= j;
    PathAncestry(i, p, world, n);
    forall f | f in rows ensures world(f.hash).previous == f.previous {
      var k :| 0 <= k < |rows| && rows[k] == f;
    }
    LinkedAncestry(world, rows, n);
    if n < j {
      PathAncestry(i, p, world, n + 1);
      assert !Stops(i, p[n]);
      assert p[n + 1].hash in i.certified ==> Stops(i, p[n + 1]);
    }
  }

  lemma PathAncestry(i: Record, p: seq<Fact>, world: Hash -> Proof, n: nat)
    requires Links(world, i.facts) && IsChain(i, p) && n < |p|
    ensures p[n].hash == Ancestor(world, p[0].hash, n)
  {
    forall f | f in p ensures world(f.hash).previous == f.previous {
      var k :| 0 <= k < |p| && p[k] == f;
    }
    assert Linked(p);
    LinkedAncestry(world, p, n);
  }

  lemma PageEndsAt(page: seq<Fact>, cursor: Block, world: Hash -> Proof)
    requires Continues(Reverse(page), cursor) && Links(world, page)
    ensures cursor.height >= page[0].height
    ensures page[0].hash == Ancestor(world, cursor.hash, cursor.height - page[0].height)
    ensures page[0].previous == Ancestor(world, cursor.hash, cursor.height - page[0].height + 1)
  {
    var rows := Reverse(page);
    LinkedDescends(rows, |rows| - 1);
    LinkedAncestry(world, rows, |rows| - 1);
  }

  /** The last page of a cycle, at the moment its target is certified. */
  ghost predicate Completing(r: Record, i: Record, page: seq<Fact>, cursor: Block, world: Hash -> Proof) {
    && StoreInv(r) && CursorInv(r) && AtCursor(r, cursor)
    && page != [] && Continues(Reverse(page), cursor) && EndsCycle(r, r.coverage.value, page[0])
    && Keeps(r, i) && i.certified == r.certified && Links(world, i.facts) && Links(world, page)
    && Sound(i) && ConflictsExact(i) && !HasConflict(i) && forall f | f in page :: f in i.facts
  }

  /** A page that reaches a known floor ends its cycle, and only a floor without a hash ends it newly at the start. */
  lemma KnownFloorEnds(r: Record, page: seq<Fact>, cursor: Block, world: Hash -> Proof)
    requires AtCursor(r, cursor) && Shape(r.coverage.value) && FloorKnown(r, world) && Sound(r)
    requires page != [] && Continues(Reverse(page), cursor) && Links(world, page)
    requires ReachesFloor(r, r.coverage.value, page[0])
    ensures EndsCycle(r, r.coverage.value, page[0])
    ensures
      || page[0].hash in r.certified
      || (r.coverage.value.floorHash.None? && page[0].height == r.start)
      || (r.coverage.value.floorHash.Some? && page[0].height > r.start)
  {
    PageEndsAt(page, cursor, world);
    hide Ancestor, Continues, Reverse, Links, Linked;
    var row := r.coverage.value;
    if page[0].hash !in r.certified {
      assert page[0].height == Base(row.floorHeight);
      if row.floorHash.Some? {
        assert Rests(r, r.certified[row.floorHash.value]);
      }
    }
  }

  lemma StopIsLast(i: Record, p: seq<Fact>, k: nat)
    requires IsChain(i, p) && k < |p| && Stops(i, p[k])
    ensures k == |p| - 1
  {
  }

  lemma NewStartIsExpected(r: Record, i: Record, page: seq<Fact>, cursor: Block, p: seq<Fact>, world: Hash -> Proof, start: Hash)
    requires Completing(r, i, page, cursor, world) && FloorKnown(r, world) && ReachesFloor(r, r.coverage.value, page[0])
    requires r.coverage.value.floorHash.None? ==> page[0].hash == start
    requires ProvenPath(i, r.coverage.value.target, p)
    ensures forall f | f in p && f.hash !in r.certified && f.height == r.start :: f.hash == start
  {
    forall f | f in p && f.hash !in r.certified && f.height == r.start ensures f.hash == start {
      var k :| 0 <= k < |p| && p[k] == f;
      StopIsLast(i, p, k);
      CompletingChain(r, i, page, cursor, p, world);
      KnownFloorEnds(r, page, cursor, world);
    }
  }

  lemma CompletingChain(r: Record, i: Record, page: seq<Fact>, cursor: Block, p: seq<Fact>, world: Hash -> Proof)
    requires Completing(r, i, page, cursor, world) && ProvenPath(i, r.coverage.value.target, p)
    requires p[|p| - 1].height == r.start && p[|p| - 1].hash !in r.certified
    ensures page[0].height == r.start && page[0].hash == p[|p| - 1].hash
  {
    var row := r.coverage.value;
    var walk :| IsWalk(r.facts, walk, row.target, cursor);
    WalkExtends(r.facts, i.facts, walk, Reverse(page), row.target, cursor);
    NoConflictMeansSingle(i);
    FloorAnchors(r, i, row, page[0]);
    NewStartIsOldest(i, row.target, walk + Reverse(page), p, world);
  }

  // ---------------------------------------------------------------- every step keeps it

  lemma PageKeepsStart(r: Record, page: seq<Fact>, cursor: Block, next: Option<Block>, world: Hash -> Proof, start: Option<Hash>)
    requires StoreInv(r) && CursorInv(r) && Links(world, r.facts) && StartInv(r, world, start)
    requires Fits(r, Page(page, cursor, next)) && StartFits(r, Page(page, cursor, next), world, start)
    ensures StartInv(RecordPage(r, page, cursor, next).0, world, start)
  {
    CommittedPage(r, page, cursor, next);
    hide RecordPage;
    var (s, result) := RecordPage(r, page, cursor, next);
    if result.Committed() {
      var row := Advanced(r.coverage.value, cursor, next, result.Quarantined?, result.inserted);
      var i := InsertAll(r, page);
      InsertAllGrows(r, page);
      if row.status == Complete {
        CompletionKeepsStart(r, page, cursor, i, row, world, start);
      } else {
        MovingKeepsStart(r, page, cursor, next, i, row, world);
      }
    }
  }

  lemma CompletionKeepsStart(r: Record, page: seq<Fact>, cursor: Block, i: Record, row: Coverage,
                             world: Hash -> Proof, start: Option<Hash>)
    requires StoreInv(r) && CursorInv(r) && Links(world, r.facts) && StartInv(r, world, start)
    requires AtCursor(r, cursor) && page != [] && Continues(Reverse(page), cursor)
    requires PageFits(r, page, None, start) && Links(world, page)
    requires i == InsertAll(r, page) && row.target == r.coverage.value.target && row.status == Complete
    requires Accepts(i, row.target) && !HasConflict(i)
    ensures StartInv(Commit(i, row), world, start)
  {
    hide Walk, Lookup, Accepts, InsertAll, HasConflict, StoreInv, CursorInv, Links, Continues, Reverse,
      ReachesFloor, IsChain, Completing;
    CompletingNow(r, page, cursor, i, world);
    KeptByInserts(r, page);
    var m, p := i.(coverage := Some(row)), Path(i, row.target.hash);
    SameRowsSameWalk(i, m, row.target);
    AcceptedPathIsChain(i, row.target);
    if start.Some? {
      NewStartIsExpected(r, i, page, cursor, p, world, start.value);
      AddedStartIsExpected(m, p, start.value);
    }
    var s := m.(certified := AddProofs(r.certified, p));
    assert Commit(i, row) == s;
  }

  lemma AddedStartIsExpected(m: Record, p: seq<Fact>, start: Hash)
    requires NoRepeat(p) && StartsAt(m, Some(start))
    requires forall f | f in p && f.hash !in m.certified && f.height == m.start :: f.hash == start
    ensures StartsAt(m.(certified := AddProofs(m.certified, p)), Some(start))
  {
    AddProofsMeaning(m.certified, p);
  }

  lemma KeptByInserts(r: Record, page: seq<Fact>)
    ensures InsertAll(r, page).certified == r.certified && InsertAll(r, page).start == r.start
  {
    InsertAllGrows(r, page);
  }

  lemma CompletingNow(r: Record, page: seq<Fact>, cursor: Block, i: Record, world: Hash -> Proof)
    requires StoreInv(r) && CursorInv(r) && FloorKnown(r, world) && Links(world, r.facts) && Links(world, page)
    requires AtCursor(r, cursor) && page != [] && Continues(Reverse(page), cursor) && ReachesFloor(r, r.coverage.value, page[0])
    requires i == InsertAll(r, page) && !HasConflict(i)
    ensures Completing(r, i, page, cursor, world) && i.start == r.start
  {
    KnownFloorEnds(r, page, cursor, world);
    InsertAllGrows(r, page);
    GrowingFactsKeepSound(r, i);
    hide Continues, Reverse, ReachesFloor, EndsCycle, CursorInv, FloorKnown, HasConflict, InsertAll;
  }

  lemma MovingKeepsStart(r: Record, page: seq<Fact>, cursor: Block, next: Option<Block>, i: Record, row: Coverage,
                         world: Hash -> Proof)
    requires FloorKnown(r, world) && AtCursor(r, cursor) && page != []
    requires Continues(Reverse(page), cursor) && NextBelow(page[0], next) && Links(world, page)
    requires next.Some? && r.coverage.value.floorHeight.Some? ==> next.value.height > r.coverage.value.floorHeight.value
    requires i.start == r.start && i.certified == r.certified && row.status != Complete
    requires row == r.coverage.value.(next := row.next, status := row.status, rows := row.rows, lastError := row.lastError,
                                      covered := row.covered, finished := row.finished)
    requires row.next == Some(cursor) || (next.Some? && row.next == next)
    ensures FloorKnown(Commit(i, row), world)
  {
    hide Linked, Ancestor;
    if next.Some? && row.next == next {
      PageEndsAt(page, cursor, world);
      if JoinedAbove(r, cursor, row.floorHeight, world) {
        var base := Base(row.floorHeight);
        AncestorSum(world, cursor.hash, cursor.height - page[0].height + 1, next.value.height - base);
        assert JoinedAbove(r, next.value, row.floorHeight, world);
      }
    }
  }

  lemma StepKeepsStart(r: Record, step: Step, world: Hash -> Proof, start: Option<Hash>)
    requires StoreInv(r) && CursorInv(r) && Links(world, r.facts) && StartInv(r, world, start)
    requires Fits(r, step) && StartFits(r, step, world, start)
    ensures StartInv(Apply(r, step), world, start)
  {
    hide StoreInv, CursorInv, RecordPage, Links, PageFits;
    match step
    case Page(facts, expected, next) => PageKeepsStart(r, facts, expected, next, world, start);
    case Begin(covered, target, floorHash, floorHeight, page) =>
      BeginKeepsStart(r, covered, target, floorHash, floorHeight, page, world, start);
    case _ =>
  }

  lemma BeginKeepsStart(r: Record, covered: Option<Block>, target: Block, floorHash: Option<Hash>,
                        floorHeight: Option<nat>, page: nat, world: Hash -> Proof, start: Option<Hash>)
    requires StoreInv(r) && CursorInv(r) && StartInv(r, world, start) && BeginFits(r, covered, floorHash, floorHeight)
    ensures StartInv(BeginCycle(r, covered, target, floorHash, floorHeight, page).Or(r), world, start)
  {
    if covered.Some? {
      assert Rests(r, r.certified[covered.value.hash]);
    }
  }
}
