/**
  The rows one history scope owns: its block facts, the conflicts between them, the blocks whose
  prefix is certified, and the single coverage row that carries the durable cursor.

  Every query and update of the program selects the scope's columns, so the rows of one scope
  never depend on another scope's.
 */
module HistoryState {
  import opened Wrappers

  // 32 bytes, only ever compared for equality.
  type Hash = nat

  /**
    A block fact as the record deduplicates it. The identity of a fact is the digest of its whole
    payload, which contains the header, so two facts are the same row exactly when all four parts
    agree; `body` stands for everything in the payload besides the header links.
   */
  datatype Fact = Fact(hash: Hash, previous: Hash, height: nat, body: nat)

  datatype Block = Block(hash: Hash, height: nat)

  /** A row of `history_certified_block`, keyed by block hash. */
  datatype Proof = Proof(previous: Hash, height: nat)

  datatype Status = Running | Complete | Error | Superseded

  /** The row of `history_coverage`; `finished` says whether `completed_at` is set. */
  datatype Coverage = Coverage(
    covered: Option<Block>,
    target: Block,
    floorHash: Option<Hash>,
    floorHeight: Option<nat>,
    next: Option<Block>,
    status: Status,
    rows: nat,
    page: nat,
    lastError: Option<string>,
    finished: bool)

  /**
    `conflicts` holds pairs of positions in `facts`, the earlier fact first. Positions stand for
    the ascending event ids.
   */
  datatype Record = Record(
    start: nat,
    facts: seq<Fact>,
    conflicts: set<(nat, nat)>,
    certified: map<Hash, Proof>,
    coverage: Option<Coverage>)

  const MAX_HEIGHT: nat := 0x7fff_ffff
  const HISTORY_CONFLICT := "conflicting immutable block facts"
  const NOT_ACTIVE := "sidechain instance is no longer active"

  function EmptyRecord(start: nat): Record {
    Record(start, [], {}, map[], None)
  }

  /** The CHECK constraints of `history_coverage` that tie columns together. */
  predicate Shape(row: Coverage) {
    && (row.floorHash.Some? ==> row.floorHeight.Some?)
    && row.page > 0
    && ((row.status == Complete && row.next.None? && row.finished)
        || (row.status != Complete && row.next.Some? && !row.finished))
  }

  predicate FitsColumn(height: Option<nat>) {
    height.Some? ==> height.value <= MAX_HEIGHT
  }

  // ---------------------------------------------------------------- inserting facts

  /** The pairs `observe_block_fact` retains when `f` becomes the newest row. */
  function NewConflicts(facts: seq<Fact>, f: Fact): set<(nat, nat)> {
    set i: nat | i < |facts| && facts[i].hash == f.hash && facts[i] != f :: (i, |facts|)
  }

  /** One insert: a repeated fact is no new row, a new row is compared with every older one. */
  function Insert(r: Record, f: Fact): Record {
    if f in r.facts then r
    else r.(facts := r.facts + [f], conflicts := r.conflicts + NewConflicts(r.facts, f))
  }

  function InsertAll(r: Record, fs: seq<Fact>): (s: Record)
    ensures |s.facts| >= |r.facts|
    decreases |fs|
  {
    if fs == [] then r else InsertAll(Insert(r, fs[0]), fs[1..])
  }

  predicate HasConflict(r: Record) {
    r.conflicts != {}
  }

  /** A retained conflict about one of the page's own blocks. */
  predicate PageConflict(r: Record, page: seq<Fact>) {
    exists c, f | c in r.conflicts && f in page :: c.0 < |r.facts| && r.facts[c.0].hash == f.hash
  }

  lemma PageConflictIsConflict(r: Record, page: seq<Fact>)
    ensures PageConflict(r, page) ==> HasConflict(r)
  {
  }

  // ---------------------------------------------------------------- what the tables mean

  ghost predicate Distinct(facts: seq<Fact>) {
    forall i, j | 0 <= i < j < |facts| :: facts[i] != facts[j]
  }

  /** Two different immutable facts about one block. */
  predicate Clash(facts: seq<Fact>, i: nat, j: nat) {
    i < j < |facts| && facts[i].hash == facts[j].hash && facts[i] != facts[j]
  }

  /** The conflict table is exactly the set of clashing pairs, nothing missing and nothing extra. */
  ghost predicate ConflictsExact(r: Record) {
    && Distinct(r.facts)
    && forall i: nat, j: nat :: (i, j) in r.conflicts <==> Clash(r.facts, i, j)
  }

  /** At most one fact about each block. */
  ghost predicate Single(facts: seq<Fact>) {
    forall f, g | f in facts && g in facts && f.hash == g.hash :: f == g
  }

  lemma InsertKeepsConflictsExact(r: Record, f: Fact)
    requires ConflictsExact(r)
    ensures ConflictsExact(Insert(r, f))
  {
    if f !in r.facts {
      var s := Insert(r, f);
      forall i: nat, j: nat
        ensures (i, j) in s.conflicts <==> Clash(s.facts, i, j)
      {
        if j < |r.facts| {
          assert Clash(s.facts, i, j) <==> Clash(r.facts, i, j);
          assert (i, j) !in NewConflicts(r.facts, f);
        } else if j == |r.facts| {
          assert (i, j) !in r.conflicts;
        } else {
          assert (i, j) !in r.conflicts;
        }
      }
    }
  }

  lemma {:induction false} InsertAllGrows(r: Record, fs: seq<Fact>)
    ensures var s := InsertAll(r, fs);
      && |s.facts| >= |r.facts|
      && s.facts[..|r.facts|] == r.facts
      && (forall f :: f in s.facts <==> f in r.facts || f in fs)
      && r.conflicts <= s.conflicts
      && s == r.(facts := s.facts, conflicts := s.conflicts)
      && (ConflictsExact(r) ==> ConflictsExact(s))
    decreases |fs|
  {
    if fs != [] {
      var mid := Insert(r, fs[0]);
      InsertAllGrows(mid, fs[1..]);
      var s := InsertAll(r, fs);
      assert s.facts[..|r.facts|] == s.facts[..|mid.facts|][..|r.facts|];
      assert fs == [fs[0]] + fs[1..];
      if ConflictsExact(r) {
        InsertKeepsConflictsExact(r, fs[0]);
      }
    }
  }

  /** The retained-conflict query answers exactly whether two facts disagree about a block. */
  lemma NoConflictMeansSingle(r: Record)
    requires ConflictsExact(r)
    ensures !HasConflict(r) <==> Single(r.facts)
  {
    if c :| c in r.conflicts {
      assert Clash(r.facts, c.0, c.1);
      assert r.facts[c.0] in r.facts && r.facts[c.1] in r.facts;
    } else {
      forall f, g | f in r.facts && g in r.facts && f.hash == g.hash ensures f == g {
        var i: nat :| i < |r.facts| && r.facts[i] == f;
        var j: nat :| j < |r.facts| && r.facts[j] == g;
        assert f != g ==> Clash(r.facts, i, j) || Clash(r.facts, j, i);
      }
    }
  }
}
