/**
  The store's history operations as the program performs them: row by row, inside one transaction
  that either commits or leaves every table as it was.
 */
module HistoryStore {
  import opened Wrappers
  import opened HistoryState
  import opened Certification
  import opened HistorySteps

  class Store {
    const start: nat
    var facts: seq<Fact>
    var conflicts: set<(nat, nat)>
    var certified: map<Hash, Proof>
    var coverage: Option<Coverage>

    function State(): Record
      reads this
    {
      Record(start, facts, conflicts, certified, coverage)
    }

    constructor (start: nat)
      ensures State() == EmptyRecord(start) && StoreInv(State())
    {
      this.start := start;
      facts, conflicts, certified, coverage := [], {}, map[], None;
      new;
      EmptyRecordIsSound(start);
    }

    /** Insert one fact; the trigger compares the new row with every older one. */
    method InsertFact(f: Fact) returns (inserted: bool)
      modifies this`facts, this`conflicts
      ensures State() == Insert(old(State()), f)
      ensures inserted <==> f !in old(facts)
    {
      if f in facts {
        return false;
      }
      var retained := conflicts;
      var i: nat := 0;
      while i < |facts|
        invariant i <= |facts| && facts == old(facts)
        invariant retained == old(conflicts)
          + set k: nat | k < i && facts[k].hash == f.hash && facts[k] != f :: (k, |facts|)
      {
        if facts[i].hash == f.hash && facts[i] != f {
          retained := retained + {(i, |facts|)};
        }
        i := i + 1;
      }
      assert retained == old(conflicts) + NewConflicts(facts, f);
      conflicts := retained;
      facts := facts + [f];
      return true;
    }

    method RecordLive(f: Fact) returns (ok: bool)
      modifies this`facts, this`conflicts
      ensures State() == HistorySteps.RecordLive(old(State()), f)
      ensures ok <==> f.height <= MAX_HEIGHT
    {
      ok := f.height <= MAX_HEIGHT;
      if ok {
        var _ := InsertFact(f);
      }
    }

    method BeginCycle(covered: Option<Block>, target: Block, floorHash: Option<Hash>, floorHeight: Option<nat>,
                      page: nat) returns (ok: bool)
      modifies this`coverage
      ensures ok <==> HistorySteps.BeginCycle(old(State()), covered, target, floorHash, floorHeight, page).Some?
      ensures State() == HistorySteps.BeginCycle(old(State()), covered, target, floorHash, floorHeight, page).Or(old(State()))
    {
      if !FitsColumn(Some(target.height)) || !FitsColumn(floorHeight) || !FitsColumn(Some(page))
         || (covered.Some? && !FitsColumn(Some(covered.value.height))) {
        return false;
      }
      var row := Coverage(covered, target, floorHash, floorHeight, Some(target), Running, 0, page, None, false);
      if coverage.Some? {
        // ON CONFLICT DO UPDATE: the old covered tip and row count survive.
        row := row.(rows := coverage.value.rows);
        if covered.None? {
          row := row.(covered := coverage.value.covered);
        }
      }
      if !Shape(row) {
        return false;
      }
      coverage := Some(row);
      return true;
    }

    /** The highest certified block among the hashes of a page. */
    method CertifiedFloor(hashes: seq<Hash>) returns (floor: Option<Block>)
      ensures floor.None? <==> forall h | h in hashes :: h !in certified
      ensures floor.Some? ==>
        && floor.value.hash in hashes && floor.value.hash in certified
        && floor.value.height == certified[floor.value.hash].height
        && forall h | h in hashes && h in certified :: certified[h].height <= floor.value.height
    {
      floor := None;
      for i := 0 to |hashes|
        invariant floor.None? <==> forall k | 0 <= k < i :: hashes[k] !in certified
        invariant floor.Some? ==>
          && floor.value.hash in hashes && floor.value.hash in certified
          && floor.value.height == certified[floor.value.hash].height
          && forall k | 0 <= k < i && hashes[k] in certified :: certified[hashes[k]].height <= floor.value.height
      {
        if hashes[i] in certified && (floor.None? || certified[hashes[i]].height > floor.value.height) {
          floor := Some(Block(hashes[i], certified[hashes[i]].height));
        }
      }
    }

    method SetFloor(cursor: Hash, floorHash: Option<Hash>, floorHeight: Option<nat>) returns (ok: bool)
      modifies this`coverage
      ensures ok <==> HistorySteps.SetFloor(old(State()), cursor, floorHash, floorHeight).Some?
      ensures State() == HistorySteps.SetFloor(old(State()), cursor, floorHash, floorHeight).Or(old(State()))
    {
      if coverage.None? || coverage.value.status != Running || coverage.value.next.None?
         || coverage.value.next.value.hash != cursor || !FitsColumn(floorHeight) {
        return false;
      }
      var row := coverage.value.(floorHash := floorHash, floorHeight := floorHeight);
      if !Shape(row) {
        return false;
      }
      coverage := Some(row);
      return true;
    }

    /** The recursive walk: level after level, until no row has a parent left to visit. */
    method WalkPath(target: Hash) returns (path: seq<Fact>)
      ensures path == Path(State(), target)
    {
      var r := State();
      var working := Lookup(facts, target, None);
      path := [];
      hide Walk, NextLevel, Lookup, Top;
      while working != []
        invariant path + Walk(r, working) == Path(r, target)
        decreases LevelsBelow(working)
      {
        UnfoldWalk(r, working);
        ghost var rest := Walk(r, NextLevel(r, working));
        assert path + (working + rest) == (path + working) + rest;
        path := path + working;
        working := NextLevel(r, working);
      }
      EmptyWalk(r);
      assert path + [] == path;
    }

    /** `certify_history`: refuse, or insert the newly proved suffix. */
    method CertifyHistory(target: Block) returns (ok: bool)
      modifies this`certified
      ensures ok <==> Accepts(old(State()), target)
      ensures State() == if ok then Certify(old(State()), target.hash) else old(State())
    {
      var path := WalkPath(target.hash);
      hide Path, AddProofs;
      if path == [] {
        return false;
      }
      var high, low := Top(path), Bottom(path);
      var joined := exists f | f in path :: f.hash in certified;
      ok := |path| == |Hashes(path)| && high == target.height && (joined || low == start) && |path| == high - low + 1;
      if !ok {
        return;
      }
      InsertProofs(path);
    }

    /** The suffix insert: a block that already has a proof keeps it. */
    method InsertProofs(path: seq<Fact>)
      modifies this`certified
      ensures certified == AddProofs(old(certified), path)
    {
      assert path[0..] == path;
      for i := 0 to |path|
        invariant AddProofs(certified, path[i..]) == AddProofs(old(certified), path)
      {
        assert path[i..][1..] == path[i + 1..];
        if path[i].hash !in certified {
          certified := certified[path[i].hash := Proof(path[i].previous, path[i].height)];
        }
      }
    }

    method PageHasConflict(page: seq<Fact>) returns (found: bool)
      ensures found <==> PageConflict(State(), page)
    {
      found := exists c, f | c in conflicts && f in page :: c.0 < |facts| && facts[c.0].hash == f.hash;
    }

    /** The page's facts, row by row; how many of them were new. */
    method InsertPage(page: seq<Fact>) returns (inserted: nat)
      modifies this`facts, this`conflicts
      ensures State() == InsertAll(old(State()), page) && |facts| == |old(facts)| + inserted
    {
      ghost var before := State();
      inserted := 0;
      assert page[0..] == page;
      for i := 0 to |page|
        invariant InsertAll(State(), page[i..]) == InsertAll(before, page)
        invariant |facts| == |before.facts| + inserted
      {
        assert page[i..][1..] == page[i + 1..];
        var isNew := InsertFact(page[i]);
        inserted := inserted + if isNew then 1 else 0;
      }
      assert page[|page|..] == [];
    }

    /** Record one page and advance the cursor, in one transaction. */
    method RecordPage(page: seq<Fact>, expected: Block, next: Option<Block>) returns (result: PageResult)
      modifies this
      ensures (State(), result) == HistorySteps.RecordPage(old(State()), page, expected, next)
    {
      if page == [] {
        return EmptyPage;
      }
      if !HeightsFit(page) || (next.Some? && next.value.height > MAX_HEIGHT) {
        return BadHeight;
      }
      hide InsertAll, PageConflict, Accepts, Commit, HeightsFit, Advanced, Shape;
      var savedFacts, savedConflicts := facts, conflicts;
      ghost var before := State();
      var inserted := InsertPage(page);
      ghost var walked := State();
      var conflict := PageHasConflict(page);
      if next.None? && conflicts != {} {
        conflict := true;
      }
      if coverage.None? || coverage.value.status != Running || coverage.value.next != Some(expected) {
        facts, conflicts := savedFacts, savedConflicts;
        assert State() == before;
        return CursorChanged;
      }
      var row := Advanced(coverage.value, expected, next, conflict, inserted);
      var refused := WriteRow(row);
      assert refused.None? ==> State() == Commit(walked, row);
      if refused.Some? {
        facts, conflicts := savedFacts, savedConflicts;
        assert State() == before;
        return refused.value;
      }
      result := if conflict then Quarantined(inserted) else Recorded(inserted);
    }

    /** The row's update: a completing row certifies its target, and a refused one changes nothing. */
    method WriteRow(row: Coverage) returns (refused: Option<PageResult>)
      modifies this`certified, this`coverage
      ensures refused ==
        if row.status == Complete && !Accepts(old(State()), row.target) then Some(Uncertified)
        else if !Shape(row) then Some(Malformed) else None
      ensures State() == if refused.None? then Commit(old(State()), row) else old(State())
    {
      hide Accepts;
      ghost var walked := State();
      var savedCertified := certified;
      if row.status == Complete {
        var proved := CertifyHistory(row.target);
        if !proved {
          return Some(Uncertified);
        }
        SameRowsSameWalk(walked, walked.(coverage := Some(row)), row.target);
      }
      if !Shape(row) {
        certified := savedCertified;
        return Some(Malformed);
      }
      coverage := Some(row);
      return None;
    }

    method Resize(page: nat, error: string) returns (ok: bool)
      modifies this`coverage
      ensures ok <==> HistorySteps.Resize(old(State()), page, error).Some?
      ensures State() == HistorySteps.Resize(old(State()), page, error).Or(old(State()))
    {
      if coverage.None? || coverage.value.status != Running || !FitsColumn(Some(page))
         || !Shape(coverage.value.(page := page)) {
        return false;
      }
      coverage := Some(coverage.value.(page := page, lastError := Some(error)));
      return true;
    }

    method Resume() returns (ok: bool)
      modifies this`coverage
      ensures ok <==> HistorySteps.Resume(old(State())).Some?
      ensures State() == HistorySteps.Resume(old(State())).Or(old(State()))
    {
      if coverage.None? || coverage.value.status !in {Error, Superseded} || coverage.value.next.None? {
        return false;
      }
      coverage := Some(coverage.value.(status := Running, lastError := None));
      return true;
    }

    /** Settle a failed cursor against the current instance; the status the row then has. */
    method Settle(current: bool, error: string) returns (status: Option<Status>)
      modifies this`coverage
      ensures State() == HistorySteps.Settle(old(State()), current, error).Or(old(State()))
      ensures status.Some? <==> old(coverage).Some?
      ensures status.Some? ==> coverage.Some? && status.value == coverage.value.status
    {
      if coverage.None? {
        return None;
      }
      if coverage.value.status == Running {
        var settled := if current then Error else Superseded;
        coverage := Some(coverage.value.(status := settled,
                                         lastError := Some(if current then error else NOT_ACTIVE)));
      }
      return Some(coverage.value.status);
    }

    method Supersede(reason: string)
      modifies this`coverage
      ensures State() == HistorySteps.Supersede(old(State()), reason)
    {
      if coverage.Some? && coverage.value.status in {Running, Error} {
        coverage := Some(coverage.value.(status := Superseded, lastError := Some(reason)));
      }
    }
  }
}
