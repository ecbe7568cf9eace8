/**
  Joining at a certified block: the walk stops there, and the parent that the fetched header names
  becomes the cycle's floor.
 */
module Joins {
  import opened Wrappers
  import opened HistoryState
  import opened Certification
  import opened Agreement
  import opened HistorySteps
  import opened HistoryCursor
  import opened StartHash
  import opened Backfill

  /** The floor a join adopts. */
  function JoinFloor(header: Fact): Option<Hash> {
    if header.height == 0 then None else Some(header.previous)
  }

  function AdoptFloor(cursor: Block, header: Fact): Step {
    Floor(cursor.hash, JoinFloor(header), Below(header.height))
  }

  /** A verified answer to the request at the cursor, in which `header` names the highest certified block. */
  predicate JoinsAt(r: Record, cursor: Block, page: seq<Fact>, header: Fact) {
    && AtCursor(r, cursor)
    && var remaining := BlocksThroughFloor(cursor.height, r.coverage.value.floorHeight);
    && remaining.Some?
    && VerifyPage(page, cursor, if remaining.value < r.coverage.value.page then remaining.value else r.coverage.value.page)
    && header in page && header.hash in r.certified
    && forall f | f in page && f.hash in r.certified :: r.certified[f.hash].height <= r.certified[header.hash].height
  }

  /** What the floor update leaves in the row is proved exactly when the header stands at the start or names a certified parent. */
  lemma JoinFloorGoodIff(r: Record, cursor: Block, header: Fact)
    requires StoreInv(r) && AtCursor(r, cursor) && header.height <= MAX_HEIGHT && header.hash in r.certified
    ensures var s := Apply(r, AdoptFloor(cursor, header));
      && s.coverage == Some(r.coverage.value.(floorHash := JoinFloor(header), floorHeight := Below(header.height)))
      && (FloorInv(s) <==>
            || header.height == r.start
            || (header.height > 0 && CertifiedAt(r, Block(header.previous, header.height - 1))))
  {
    assert Rests(r, r.certified[header.hash]);
  }

  /** With one header per hash the fetched header is the one the proof recorded, and the floor is proved. */
  lemma HonestJoinIsGood(r: Record, cursor: Block, header: Fact, world: Hash -> Proof)
    requires StoreInv(r) && AtCursor(r, cursor) && header.height <= MAX_HEIGHT && header.hash in r.certified
    requires Agrees(world, r.facts) && world(header.hash) == Proof(header.previous, header.height)
    ensures FloorInv(Apply(r, AdoptFloor(cursor, header)))
    ensures FloorGood(r, JoinFloor(header), Below(header.height))
  {
    assert Backed(r, header.hash, r.certified[header.hash]) && Rests(r, r.certified[header.hash]);
    JoinFloorGoodIff(r, cursor, header);
  }

  /** Whatever height the header claims, down the committed links the adopted floor lies below the joined block. */
  lemma LinkedJoinIsKnown(r: Record, cursor: Block, blocks: seq<Fact>, index: nat, world: Hash -> Proof)
    requires AtCursor(r, cursor) && Continues(blocks, cursor) && index < |blocks|
    requires Links(world, blocks) && blocks[index].hash in r.certified
    ensures FloorFromJoin(r, Below(blocks[index].height), world)
  {
    LinkedDescends(blocks, index);
    LinkedAncestry(world, blocks, index);
  }

  // ---------------------------------------------------------------- a source that lies about a header

  const FIRST := Fact(1, 0, 0, 0)
  const LIE := Fact(1, 9, 5, 0)

  /** A finished cycle of one block, then an extension to a target six blocks up. */
  const EXTENDING := [
    Begin(None, Block(1, 0), None, None, 7),
    Page([FIRST], Block(1, 0), None),
    Begin(Some(Block(1, 0)), Block(2, 6), Some(1), Some(0), 7)]

  lemma OneBlockCycle(r: Record)
    requires r == Apply(EmptyRecord(0), Begin(None, Block(1, 0), None, None, 7))
    ensures Fits(r, Page([FIRST], Block(1, 0), None))
    ensures var s := Apply(r, Page([FIRST], Block(1, 0), None));
      && s.facts == [FIRST] && s.start == 0 && CertifiedAt(s, Block(1, 0)) && CoveredOf(s) == Some(Block(1, 0))
  {
    EmptyRecordIsSound(0);
    StepKeepsStoreInv(EmptyRecord(0), Begin(None, Block(1, 0), None, None, 7));
    NewCycleIsLinked(r, r.coverage.value);
    assert Reverse([FIRST]) == [FIRST];
    InsertAllGrows(r, [FIRST]);
    assert InsertAll(r, [FIRST]) == Insert(r, FIRST) by {
      assert [FIRST][1..] == [];
    }
    LastPageIsAccepted(r, [FIRST], Block(1, 0));
    CommittedPage(r, [FIRST], Block(1, 0), None);
  }

  lemma ExtendingRun()
    ensures AllFit(EmptyRecord(0), EXTENDING, true)
    ensures var r := Play(EmptyRecord(0), EXTENDING);
      && r.start == 0 && r.facts == [FIRST] && 1 in r.certified && AtCursor(r, Block(2, 6))
      && r.coverage.value.page == 7 && r.coverage.value.floorHeight == Some(0)
  {
    hide RecordPage;
    var r0, steps := EmptyRecord(0), EXTENDING;
    var r1 := Apply(r0, steps[0]);
    OneBlockCycle(r1);
    var r2 := Apply(r1, steps[1]);
    var r3 := Apply(r2, steps[2]);
    assert steps[1..][0] == steps[1] && steps[1..][1..][0] == steps[2] && steps[1..][1..][1..] == [];
    assert Play(r2, steps[1..][1..]) == Play(r3, []) == r3;
    assert Play(r1, steps[1..]) == r3;
    assert AllFit(r3, [], true);
    assert AllFit(r2, steps[1..][1..], true);
    assert AllFit(r1, steps[1..], true);
  }

  /** One lying header in a verified page makes the durable floor one that nothing proves. */
  lemma LyingJoinBreaksFloor()
    ensures exists steps: seq<Step>, cursor: Block, page: seq<Fact>, header: Fact ::
      && AllFit(EmptyRecord(0), steps, true)
      && var r := Play(EmptyRecord(0), steps);
      && JoinsAt(r, cursor, page, header)
      && FloorInv(r) && !FloorInv(Apply(r, AdoptFloor(cursor, header)))
  {
    hide Play, AllFit, Fits;
    var cursor, page := Block(2, 6), [Fact(2, 1, 6, 0), LIE];
    ExtendingRun();
    EmptyRecordIsSound(0);
    CursorSurvivesEveryRun(EmptyRecord(0), EXTENDING, true);
    var r := Play(EmptyRecord(0), EXTENDING);
    assert page[1] == LIE && LIE in page;
    forall h | h in r.certified ensures h == 1 {
      assert Backed(r, h, r.certified[h]);
    }
    assert JoinsAt(r, cursor, page, LIE);
    JoinFloorGoodIff(r, cursor, LIE);
  }

  /** But the page that lies about a certified block is never recorded as the end of a cycle. */
  lemma LyingJoinIsCaught(r: Record, page: seq<Fact>, expected: Block, next: Option<Block>, header: Fact)
    requires StoreInv(r) && AtCursor(r, expected)
    requires header in page && HeightsFit(page) && (next.Some? ==> next.value.height <= MAX_HEIGHT)
    requires header.hash in r.certified && r.certified[header.hash] != Proof(header.previous, header.height)
    ensures var (s, result) := RecordPage(r, page, expected, next);
      result.Quarantined? && HasConflict(s) && s.certified == r.certified
  {
    var p := r.certified[header.hash];
    assert Backed(r, header.hash, p);
    var f :| f in r.facts && f.hash == header.hash && f.previous == p.previous && f.height == p.height;
    assert f in r.facts + page;
    ConflictingPageIsRetained(r, page, expected, next);
  }
}
