/**
  The incremental proof and the recursive one: whatever chain of stored facts the backwards walk
  has assembled, the independent query walks the same rows and accepts them.
 */
module Agreement {
  import opened Wrappers
  import opened HistoryState
  import opened Certification

  /** Newest first, each block the parent of the one before it. */
  ghost predicate Linked(rows: seq<Fact>) {
    forall i | 0 <= i < |rows| - 1 ::
      rows[i + 1].hash == rows[i].previous && rows[i + 1].height == rows[i].height - 1
  }

  ghost predicate Stored(facts: seq<Fact>, rows: seq<Fact>) {
    forall i | 0 <= i < |rows| :: rows[i] in facts
  }

  /** `rows` is the part of the target's ancestry above `next` that is already stored. */
  ghost predicate IsWalk(facts: seq<Fact>, rows: seq<Fact>, target: Block, next: Block) {
    && Stored(facts, rows) && Linked(rows)
    && (rows == [] ==> next == target)
    && (rows != [] ==>
          && rows[0].hash == target.hash && rows[0].height == target.height
          && rows[|rows| - 1].previous == next.hash && rows[|rows| - 1].height == next.height + 1)
  }

  /** A page that starts at the cursor and runs down the parent links. */
  ghost predicate Continues(rows: seq<Fact>, cursor: Block) {
    rows != [] && Linked(rows) && rows[0].hash == cursor.hash && rows[0].height == cursor.height
  }

  lemma WalkExtends(facts: seq<Fact>, more: seq<Fact>, rows: seq<Fact>, page: seq<Fact>, target: Block, cursor: Block)
    requires IsWalk(facts, rows, target, cursor) && Continues(page, cursor)
    requires Stored(more, page) && forall f | f in facts :: f in more
    ensures Stored(more, rows + page) && Linked(rows + page)
    ensures (rows + page)[0].hash == target.hash && (rows + page)[0].height == target.height
    ensures (rows + page)[|rows + page| - 1] == page[|page| - 1]
    ensures forall next: Block | page[|page| - 1].previous == next.hash && page[|page| - 1].height == next.height + 1 ::
      IsWalk(more, rows + page, target, next)
  {
    var all := rows + page;
    forall i | 0 <= i < |all| - 1
      ensures all[i + 1].hash == all[i].previous && all[i + 1].height == all[i].height - 1
    {
      if i + 1 < |rows| {
        assert all[i] == rows[i] && all[i + 1] == rows[i + 1];
      } else if i + 1 == |rows| {
        assert all[i] == rows[|rows| - 1] && all[i + 1] == page[0];
      } else {
        assert all[i] == page[i - |rows|] && all[i + 1] == page[i - |rows| + 1];
      }
    }
  }

  /** A block below which the recursive walk need not look, or finds a certified parent. */
  ghost predicate Anchored(r: Record, f: Fact) {
    || f.hash in r.certified
    || f.height == r.start
    || (f.height > r.start && f.previous in r.certified && r.certified[f.previous].height == f.height - 1)
  }

  lemma FirstIsMember(rows: seq<Fact>)
    ensures rows == [] || rows[0] in rows
  {
  }

  lemma {:induction false} LookupSingle(facts: seq<Fact>, hash: Hash, height: Option<int>)
    requires Distinct(facts) && Single(facts)
    ensures |Lookup(facts, hash, height)| <= 1
  {
    if facts != [] {
      var rest := facts[1..];
      assert facts == [facts[0]] + rest;
      forall i, j | 0 <= i < j < |rest| ensures rest[i] != rest[j] {
        assert facts[i + 1] != facts[j + 1];
      }
      LookupSingle(rest, hash, height);
      if facts[0].hash == hash {
        forall g | g in rest ensures g.hash != hash {
          var k :| 0 <= k < |rest| && rest[k] == g;
          assert facts[0] != facts[k + 1];
          assert facts[0] in facts && facts[k + 1] in facts;
        }
        FirstIsMember(Lookup(rest, hash, height));
      }
    }
  }

  lemma LookupFinds(facts: seq<Fact>, f: Fact)
    requires Distinct(facts) && Single(facts) && f in facts
    ensures Lookup(facts, f.hash, None) == [f]
    ensures Lookup(facts, f.hash, Some(f.height)) == [f]
  {
    LookupSingle(facts, f.hash, None);
    LookupSingle(facts, f.hash, Some(f.height));
    assert f in Lookup(facts, f.hash, None) && f in Lookup(facts, f.hash, Some(f.height));
  }

  /** Where the recursive walk from `f` ends up. */
  ghost predicate Succeeds(r: Record, f: Fact) {
    var p := Walk(r, [f]);
    && p != [] && p[0] == f && IsChain(r, p)
    && (p[|p| - 1].hash in r.certified || p[|p| - 1].height == r.start)
  }

  lemma StopSucceeds(r: Record, f: Fact)
    requires f in r.facts && (f.hash in r.certified || f.height == r.start)
    ensures Succeeds(r, f)
  {
    LevelOfOne(r, f);
    assert Walk(r, [f]) == [f];
  }

  lemma StepSucceeds(r: Record, f: Fact, parent: Fact)
    requires Distinct(r.facts) && Single(r.facts)
    requires f in r.facts && parent in r.facts && !Stops(r, f)
    requires parent.hash == f.previous && parent.height == f.height - 1
    requires Succeeds(r, parent)
    ensures Succeeds(r, f)
  {
    LookupFinds(r.facts, parent);
    LevelOfOne(r, f);
    var rest := Walk(r, [parent]);
    assert Walk(r, [f]) == [f] + rest;
    ChainCons(r, f, rest);
  }

  lemma {:induction false} StoredChainSucceeds(r: Record, rows: seq<Fact>)
    requires Sound(r) && Distinct(r.facts) && Single(r.facts)
    requires rows != [] && Stored(r.facts, rows) && Linked(rows)
    requires rows[0].height >= r.start && Anchored(r, rows[|rows| - 1])
    ensures Succeeds(r, rows[0])
    decreases |rows|
  {
    var f := rows[0];
    if f.hash in r.certified || f.height == r.start {
      StopSucceeds(r, f);
    } else if |rows| == 1 {
      assert Backed(r, f.previous, r.certified[f.previous]);
      var parent :| parent in r.facts && parent.hash == f.previous && parent.height == f.height - 1;
      StopSucceeds(r, parent);
      StepSucceeds(r, f, parent);
    } else {
      var rest := rows[1..];
      assert rest[0] == rows[0 + 1];
      forall i | 0 <= i < |rest| - 1
        ensures rest[i + 1].hash == rest[i].previous && rest[i + 1].height == rest[i].height - 1
      {
        assert rest[i] == rows[i + 1] && rest[i + 1] == rows[i + 1 + 1];
      }
      hide Sound, Anchored, Succeeds, Distinct, Single;
      StoredChainSucceeds(r, rest);
      StepSucceeds(r, f, rest[0]);
    }
  }

  lemma ChainHasNoRepeat(r: Record, rows: seq<Fact>)
    requires Single(r.facts) && IsChain(r, rows) && rows != []
    ensures NoRepeat(rows)
  {
    ChainHeights(r, rows);
    forall i, j | 0 <= i < j < |rows| ensures rows[i].hash != rows[j].hash {
      assert rows[i].height != rows[j].height;
      assert rows[i] in r.facts && rows[j] in r.facts;
    }
  }

  /** The two proofs agree: a stored chain from the target to an anchor is accepted. */
  lemma StoredChainIsAccepted(r: Record, rows: seq<Fact>, target: Block)
    requires Sound(r) && ConflictsExact(r) && !HasConflict(r)
    requires rows != [] && Stored(r.facts, rows) && Linked(rows)
    requires rows[0].hash == target.hash && rows[0].height == target.height
    requires target.height >= r.start && Anchored(r, rows[|rows| - 1])
    ensures Accepts(r, target)
  {
    NoConflictMeansSingle(r);
    StoredChainSucceeds(r, rows);
    LookupFinds(r.facts, rows[0]);
    var p := Path(r, target.hash);
    ChainHasNoRepeat(r, p);
    HashCount(p);
    ChainHeights(r, p);
    var last := p[|p| - 1];
    assert last in p;
    assert last.hash in r.certified ==> Joined(r, p);
  }
}
