/**
  `certify_history`: the recursive query that walks parent links from the target on its own, the
  check on the walked rows, and the insertion of the newly proved suffix.
 */
module Certification {
  import opened Wrappers
  import opened HistoryState

  // ---------------------------------------------------------------- the walk

  /** The facts about one block, optionally at one height only. */
  function Lookup(facts: seq<Fact>, hash: Hash, height: Option<int>): (rows: seq<Fact>)
    ensures forall f :: f in rows <==> f in facts && f.hash == hash && (height.Some? ==> f.height == height.value)
  {
    if facts == [] then []
    else
      var rest := Lookup(facts[1..], hash, height);
      assert facts == [facts[0]] + facts[1..];
      if facts[0].hash == hash && (height.Some? ==> facts[0].height == height.value)
      then [facts[0]] + rest else rest
  }

  /** The recursive term goes no further below this row. */
  predicate Stops(r: Record, f: Fact) {
    f.hash in r.certified || f.height <= r.start
  }

  /** The rows the recursive term adds for one row of the working table. */
  function Parents(r: Record, f: Fact): seq<Fact> {
    if Stops(r, f) then [] else Lookup(r.facts, f.previous, Some(f.height - 1))
  }

  function NextLevel(r: Record, working: seq<Fact>): seq<Fact> {
    if working == [] then [] else Parents(r, working[0]) + NextLevel(r, working[1..])
  }

  function Top(rows: seq<Fact>): (h: nat)
    ensures forall f | f in rows :: f.height <= h
    ensures rows != [] ==> exists f :: f in rows && f.height == h
  {
    if rows == [] then 0
    else
      var rest := Top(rows[1..]);
      assert rows == [rows[0]] + rows[1..];
      if rest >= rows[0].height && rows[1..] != [] then rest else rows[0].height
  }

  function Bottom(rows: seq<Fact>): (h: nat)
    requires rows != []
    ensures forall f | f in rows :: h <= f.height
    ensures exists f :: f in rows && f.height == h
  {
    assert rows == [rows[0]] + rows[1..];
    if |rows| == 1 then rows[0].height
    else
      var rest := Bottom(rows[1..]);
      if rest <= rows[0].height then rest else rows[0].height
  }

  lemma {:induction false} NextLevelMembers(r: Record, working: seq<Fact>)
    ensures forall g | g in NextLevel(r, working) ::
      exists f :: f in working && !Stops(r, f) && g in r.facts && g.hash == f.previous && g.height == f.height - 1
    ensures NextLevel(r, working) != [] ==> Top(NextLevel(r, working)) < Top(working)
  {
    if working != [] {
      assert working == [working[0]] + working[1..];
      NextLevelMembers(r, working[1..]);
    }
  }

  /** The bag of rows the recursive query yields, level by level (`UNION ALL` keeps duplicates). */
  function Walk(r: Record, working: seq<Fact>): seq<Fact>
    decreases LevelsBelow(working)
  {
    if working == [] then []
    else
      NextLevelMembers(r, working);
      working + Walk(r, NextLevel(r, working))
  }

  function LevelsBelow(working: seq<Fact>): nat {
    if working == [] then 0 else Top(working) + 1
  }

  lemma UnfoldWalk(r: Record, working: seq<Fact>)
    requires working != []
    ensures Walk(r, working) == working + Walk(r, NextLevel(r, working))
    ensures LevelsBelow(NextLevel(r, working)) < LevelsBelow(working)
  {
    NextLevelMembers(r, working);
  }

  lemma EmptyWalk(r: Record)
    ensures Walk(r, []) == []
  {
  }

  function Path(r: Record, target: Hash): seq<Fact> {
    Walk(r, Lookup(r.facts, target, None))
  }

  // ---------------------------------------------------------------- the check

  function Hashes(rows: seq<Fact>): set<Hash> {
    set f | f in rows :: f.hash
  }

  predicate Joined(r: Record, rows: seq<Fact>) {
    exists f | f in rows :: f.hash in r.certified
  }

  /** The walk is neither missing, nor discontinuous, nor ambiguous. */
  predicate Accepts(r: Record, target: Block) {
    var path := Path(r, target.hash);
    && path != []
    && |path| == |Hashes(path)|
    && Top(path) == target.height
    && (Joined(r, path) || Bottom(path) == r.start)
    && |path| == Top(path) - Bottom(path) + 1
  }

  /** Inserting proof rows; a block that already has one keeps it. */
  function AddProofs(certified: map<Hash, Proof>, rows: seq<Fact>): map<Hash, Proof>
    decreases |rows|
  {
    if rows == [] then certified
    else
      var f := rows[0];
      AddProofs(if f.hash in certified then certified else certified[f.hash := Proof(f.previous, f.height)], rows[1..])
  }

  function Certify(r: Record, target: Hash): Record {
    r.(certified := AddProofs(r.certified, Path(r, target)))
  }

  // ---------------------------------------------------------------- what certification means

  ghost predicate Backed(r: Record, h: Hash, p: Proof) {
    exists f :: f in r.facts && f.hash == h && f.previous == p.previous && f.height == p.height
  }

  /** The block is the scope's first, or its parent is certified one height below. */
  predicate Rests(r: Record, p: Proof) {
    p.height == r.start
    || (p.height > r.start && p.previous in r.certified && r.certified[p.previous].height == p.height - 1)
  }

  /** Membership means the whole prefix down to the start height was proved, from stored facts. */
  ghost predicate Sound(r: Record) {
    forall h | h in r.certified :: Backed(r, h, r.certified[h]) && Rests(r, r.certified[h])
  }

  /** Consecutive rows are child and parent, and the walk only passes rows it may pass. */
  ghost predicate IsChain(r: Record, rows: seq<Fact>) {
    && (forall i | 0 <= i < |rows| :: rows[i] in r.facts)
    && (forall i | 0 <= i < |rows| - 1 ::
          && !Stops(r, rows[i])
          && rows[i + 1].hash == rows[i].previous
          && rows[i + 1].height == rows[i].height - 1)
  }

  // ---------------------------------------------------------------- an accepted walk is one chain

  ghost predicate NoRepeat(rows: seq<Fact>) {
    forall i, j | 0 <= i < j < |rows| :: rows[i].hash != rows[j].hash
  }

  lemma NoRepeatCons(f: Fact, rest: seq<Fact>)
    ensures NoRepeat([f] + rest) <==> NoRepeat(rest) && f.hash !in Hashes(rest)
  {
    var rows := [f] + rest;
    assert forall i | 0 <= i < |rest| :: rows[i + 1] == rest[i];
    if NoRepeat(rows) {
      forall i, j | 0 <= i < j < |rest| ensures rest[i].hash != rest[j].hash {
        assert rows[i + 1].hash != rows[j + 1].hash;
      }
      forall g | g in rest ensures g.hash != f.hash {
        var k :| 0 <= k < |rest| && rest[k] == g;
        assert rows[0].hash != rows[k + 1].hash;
      }
    }
    if NoRepeat(rest) && f.hash !in Hashes(rest) {
      forall i, j | 0 <= i < j < |rows| ensures rows[i].hash != rows[j].hash {
        assert rows[j] == rest[j - 1] && rest[j - 1] in rest;
        assert i > 0 ==> rows[i] == rest[i - 1];
      }
    }
  }

  /** `count(*) = count(DISTINCT block_hash)` says that no block is walked twice. */
  lemma {:induction false} HashCount(rows: seq<Fact>)
    ensures |Hashes(rows)| <= |rows|
    ensures |Hashes(rows)| == |rows| <==> NoRepeat(rows)
  {
    if rows != [] {
      var f, rest := rows[0], rows[1..];
      assert rows == [f] + rest;
      HashCount(rest);
      NoRepeatCons(f, rest);
      assert Hashes(rows) == {f.hash} + Hashes(rest);
      if f.hash in Hashes(rest) {
        assert Hashes(rows) == Hashes(rest);
      }
    }
  }

  lemma ChainCons(r: Record, f: Fact, rest: seq<Fact>)
    requires f in r.facts && IsChain(r, rest)
    requires rest != [] ==> !Stops(r, f) && rest[0].hash == f.previous && rest[0].height == f.height - 1
    ensures IsChain(r, [f] + rest)
  {
    var rows := [f] + rest;
    assert forall i | 0 <= i < |rest| :: rows[i + 1] == rest[i];
    forall i | 0 <= i < |rows| - 1
      ensures !Stops(r, rows[i]) && rows[i + 1].hash == rows[i].previous && rows[i + 1].height == rows[i].height - 1
    {
      assert i > 0 ==> rows[i] == rest[i - 1] && rows[i + 1] == rest[i - 1 + 1];
    }
  }

  lemma LevelOfOne(r: Record, f: Fact)
    ensures NextLevel(r, [f]) == Parents(r, f)
  {
    assert NextLevel(r, [f]) == Parents(r, f) + NextLevel(r, [f][1..]);
  }

  lemma TwoRowsRepeat(working: seq<Fact>, rest: seq<Fact>, h: Hash)
    requires forall f | f in working :: f.hash == h
    ensures |working| > 1 ==> !NoRepeat(working + rest)
  {
    if |working| > 1 {
      var all := working + rest;
      assert all[0] == working[0] && all[1] == working[1];
      assert working[0] in working && working[1] in working;
    }
  }

  /** A level whose rows all name one block cannot hold two rows of a walk without repetition. */
  lemma {:induction false} UnrepeatedWalkIsChain(r: Record, working: seq<Fact>, h: Hash)
    requires forall f | f in working :: f in r.facts && f.hash == h
    requires NoRepeat(Walk(r, working))
    ensures IsChain(r, Walk(r, working))
    ensures working != [] ==> Walk(r, working) != [] && Walk(r, working)[0] == working[0]
    decreases if working == [] then 0 else Top(working) + 1
  {
    if working != [] {
      NextLevelMembers(r, working);
      var rest := Walk(r, NextLevel(r, working));
      var all := working + rest;
      assert Walk(r, working) == all;
      TwoRowsRepeat(working, rest, h);
      var f := working[0];
      assert working == [f];
      LevelOfOne(r, f);
      NoRepeatCons(f, rest);
      UnrepeatedWalkIsChain(r, Parents(r, f), f.previous);
      if rest != [] {
        assert rest[0] in Parents(r, f);
      }
      ChainCons(r, f, rest);
    }
  }

  lemma {:induction false} ChainHeights(r: Record, rows: seq<Fact>)
    requires IsChain(r, rows) && rows != []
    ensures forall i | 0 <= i < |rows| :: rows[i].height == rows[0].height - i
    ensures Top(rows) == rows[0].height && Bottom(rows) == rows[|rows| - 1].height
  {
    ChainHeight(r, rows, |rows| - 1);
    forall i | 0 <= i < |rows| ensures rows[i].height == rows[0].height - i {
      ChainHeight(r, rows, i);
    }
    var t :| t in rows && t.height == Top(rows);
    var b :| b in rows && b.height == Bottom(rows);
    assert rows[0] in rows && rows[|rows| - 1] in rows;
  }

  lemma {:induction false} ChainHeight(r: Record, rows: seq<Fact>, i: nat)
    requires IsChain(r, rows) && i < |rows|
    ensures rows[i].height == rows[0].height - i
  {
    if i > 0 {
      ChainHeight(r, rows, i - 1);
      assert rows[i - 1 + 1].height == rows[i - 1].height - 1;
    }
  }

  /** Only the last row of a chain can be an already certified block. */
  lemma JoinIsLast(r: Record, rows: seq<Fact>)
    requires IsChain(r, rows) && Joined(r, rows)
    ensures rows != [] && rows[|rows| - 1].hash in r.certified
  {
    var f :| f in rows && f.hash in r.certified;
    var i :| 0 <= i < |rows| && rows[i] == f;
    assert Stops(r, rows[i]);
  }

  /** What an accepted walk is: one chain, from the target to a block that may end it. */
  ghost predicate ProvenPath(r: Record, target: Block, p: seq<Fact>) {
    && p != [] && IsChain(r, p) && NoRepeat(p)
    && p[0].hash == target.hash && p[0].height == target.height
    && (p[|p| - 1].hash in r.certified || p[|p| - 1].height == r.start)
  }

  /** The check by itself, whatever facts are stored, refuses every walk that branches. */
  lemma AcceptedPathIsChain(r: Record, target: Block)
    requires Accepts(r, target)
    ensures ProvenPath(r, target, Path(r, target.hash))
  {
    var p := Path(r, target.hash);
    HashCount(p);
    UnrepeatedWalkIsChain(r, Lookup(r.facts, target.hash, None), target.hash);
    ChainHeights(r, p);
    if Joined(r, p) {
      JoinIsLast(r, p);
    }
  }

  // ---------------------------------------------------------------- soundness, exactly

  lemma {:induction false} AddProofsMeaning(certified: map<Hash, Proof>, rows: seq<Fact>)
    requires NoRepeat(rows)
    ensures var c := AddProofs(certified, rows);
      && c.Keys == certified.Keys + Hashes(rows)
      && (forall h | h in certified :: c[h] == certified[h])
      && (forall f | f in rows && f.hash !in certified :: c[f.hash] == Proof(f.previous, f.height))
    decreases |rows|
  {
    if rows != [] {
      var f, rest := rows[0], rows[1..];
      assert rows == [f] + rest;
      NoRepeatCons(f, rest);
      AddProofsMeaning(if f.hash in certified then certified else certified[f.hash := Proof(f.previous, f.height)], rest);
      assert Hashes(rows) == {f.hash} + Hashes(rest);
    }
  }

  /**
    The one thing the walk does not look at: it recognises a certified block by its hash, not by
    the header its proof recorded.
   */
  predicate JoinAgrees(r: Record, p: seq<Fact>) {
    |p| > 1 && p[|p| - 1].hash in r.certified ==> r.certified[p[|p| - 1].hash].height == p[|p| - 1].height
  }

  /** Without the conflict check, certification stays sound exactly when the join agrees. */
  lemma CertifySoundIff(r: Record, target: Block)
    requires Sound(r) && Accepts(r, target)
    ensures Sound(Certify(r, target.hash)) <==> JoinAgrees(r, Path(r, target.hash))
  {
    var p := Path(r, target.hash);
    AcceptedPathIsChain(r, target);
    if JoinAgrees(r, p) {
      AgreeingJoinIsSound(r, target, p);
    } else {
      DisagreeingJoinIsUnsound(r, target, p);
    }
  }

  lemma AgreeingJoinIsSound(r: Record, target: Block, p: seq<Fact>)
    requires Sound(r) && ProvenPath(r, target, p) && JoinAgrees(r, p)
    ensures Sound(r.(certified := AddProofs(r.certified, p)))
  {
    var s := r.(certified := AddProofs(r.certified, p));
    AddProofsMeaning(r.certified, p);
    forall h | h in s.certified ensures Backed(s, h, s.certified[h]) && Rests(s, s.certified[h]) {
      if h in r.certified {
        assert Backed(r, h, r.certified[h]) && Rests(r, r.certified[h]);
      } else {
        var f :| f in p && f.hash == h;
        var i :| 0 <= i < |p| && p[i] == f;
        PathRowRests(r, target, p, i);
      }
    }
  }

  lemma DisagreeingJoinIsUnsound(r: Record, target: Block, p: seq<Fact>)
    requires Sound(r) && ProvenPath(r, target, p) && !JoinAgrees(r, p)
    ensures !Sound(r.(certified := AddProofs(r.certified, p)))
  {
    var s := r.(certified := AddProofs(r.certified, p));
    AddProofsMeaning(r.certified, p);
    var i := |p| - 2;
    assert !Stops(r, p[i]) && p[i + 1].hash == p[i].previous;
    assert p[i] in p;
    assert s.certified[p[i].hash] == Proof(p[i].previous, p[i].height);
    assert !Rests(s, s.certified[p[i].hash]);
  }

  lemma PathRowRests(r: Record, target: Block, p: seq<Fact>, i: nat)
    requires ProvenPath(r, target, p) && JoinAgrees(r, p) && i < |p| && p[i].hash !in r.certified
    ensures var s := r.(certified := AddProofs(r.certified, p));
      p[i].hash in s.certified
      && Backed(s, p[i].hash, s.certified[p[i].hash]) && Rests(s, s.certified[p[i].hash])
  {
    AddProofsMeaning(r.certified, p);
    assert p[i] in p;
    if i < |p| - 1 {
      assert !Stops(r, p[i]) && p[i + 1].hash == p[i].previous;
      assert p[i + 1] in p;
      assert p[i + 1].hash in r.certified ==> Stops(r, p[i + 1]) && i + 1 == |p| - 1;
    }
  }

  /** With no retained conflict in the scope, every completion keeps certification sound. */
  lemma CertifyKeepsSound(r: Record, target: Block)
    requires Sound(r) && ConflictsExact(r) && !HasConflict(r) && Accepts(r, target)
    ensures Sound(Certify(r, target.hash))
    ensures target.hash in Certify(r, target.hash).certified
    ensures Certify(r, target.hash).certified[target.hash].height == target.height
  {
    var p := Path(r, target.hash);
    AcceptedPathIsChain(r, target);
    AddProofsMeaning(r.certified, p);
    NoConflictMeansSingle(r);
    assert p[0] in p;
    var last := p[|p| - 1];
    if last.hash in r.certified {
      CertifiedFactAgrees(r, last);
    }
    if p[0].hash in r.certified {
      CertifiedFactAgrees(r, p[0]);
    }
    CertifySoundIff(r, target);
  }

  lemma CertifiedFactAgrees(r: Record, f: Fact)
    requires Sound(r) && Single(r.facts) && f in r.facts && f.hash in r.certified
    ensures r.certified[f.hash] == Proof(f.previous, f.height)
  {
    assert Backed(r, f.hash, r.certified[f.hash]);
  }

  /** Block 1 is certified at height 0, and a clashing fact puts it at height 5, below block 2. */
  ghost function ClashingRecord(): Record {
    Record(0, [Fact(1, 0, 0, 0), Fact(1, 9, 5, 0), Fact(2, 1, 6, 0)], {(0, 1)}, map[1 := Proof(0, 0)], None)
  }

  lemma ClashingRecordIsSound()
    ensures Sound(ClashingRecord()) && ConflictsExact(ClashingRecord())
  {
    var r := ClashingRecord();
    assert r.facts[0] in r.facts;
    assert Backed(r, 1, Proof(0, 0));
  }

  lemma ClashingWalkIsAccepted()
    ensures Path(ClashingRecord(), 2) == [Fact(2, 1, 6, 0), Fact(1, 9, 5, 0)]
    ensures Accepts(ClashingRecord(), Block(2, 6))
  {
    TwoRowWalk(ClashingRecord(), Fact(1, 9, 5, 0), Fact(2, 1, 6, 0));
    TwoRowsAccepted(ClashingRecord(), Fact(2, 1, 6, 0), Fact(1, 9, 5, 0));
  }

  lemma TwoRowsAccepted(r: Record, child: Fact, clash: Fact)
    requires Path(r, child.hash) == [child, clash] && child.hash != clash.hash && child.height == clash.height + 1
    requires clash.hash in r.certified
    ensures Accepts(r, Block(child.hash, child.height))
  {
    hide Path;
    var p := [child, clash];
    assert p[1..] == [clash] && [clash][1..] == [];
    assert p[0] in p && p[1] in p && Hashes(p) == {child.hash, clash.hash};
    assert Top([clash]) == clash.height && Bottom([clash]) == clash.height;
    assert Top(p) == child.height && Bottom(p) == clash.height;
    assert Joined(r, p);
  }

  /** The conflict check is needed: a clashing fact makes the walk join a proof of another height. */
  lemma WalkAloneIsUnsound()
    ensures exists r: Record, target: Block ::
      Sound(r) && ConflictsExact(r) && Accepts(r, target) && !Sound(Certify(r, target.hash))
  {
    hide Walk, Sound, ConflictsExact, Accepts, Certify;
    ClashingRecordIsSound();
    ClashingWalkIsAccepted();
    CertifySoundIff(ClashingRecord(), Block(2, 6));
  }

  lemma TwoRowWalk(r: Record, clash: Fact, child: Fact)
    requires |r.facts| == 3 && r.facts[1] == clash && r.facts[2] == child && r.start == 0
    requires r.facts[0].hash != child.hash && clash.hash != child.hash
    requires child.hash !in r.certified && clash.hash in r.certified
    requires child.previous == clash.hash && child.height == clash.height + 1 && r.facts[0].height != clash.height
    ensures Path(r, child.hash) == [child, clash]
  {
    var a := r.facts[0];
    assert r.facts == [a, clash, child];
    assert r.facts[1..] == [clash, child];
    assert r.facts[1..][1..] == [child];
    assert Lookup([child], child.hash, None) == [child];
    assert Lookup([clash, child], child.hash, None) == [child];
    assert Lookup(r.facts, child.hash, None) == [child];
    var h := Some(clash.height as int);
    assert Lookup([child], clash.hash, h) == [];
    assert Lookup([clash, child], clash.hash, h) == [clash];
    assert Lookup(r.facts, clash.hash, h) == [clash];
    LevelOfOne(r, child);
    LevelOfOne(r, clash);
    assert Walk(r, [clash]) == [clash];
    assert Walk(r, [child]) == [child] + Walk(r, [clash]);
  }

  // ---------------------------------------------------------------- the whole prefix

  /** The certified blocks from `h` down to the scope's start. */
  ghost function Lineage(r: Record, h: Hash): (hs: seq<Hash>)
    requires Sound(r) && h in r.certified
    decreases r.certified[h].height
  {
    assert Rests(r, r.certified[h]);
    if r.certified[h].height == r.start then [h]
    else [h] + Lineage(r, r.certified[h].previous)
  }

  /** Every certified block carries a stored, hash-linked fact for each height down to the start. */
  lemma {:induction false} CertifiedHasWholePrefix(r: Record, h: Hash)
    requires Sound(r) && h in r.certified
    ensures var hs := Lineage(r, h);
      && r.certified[h].height >= r.start
      && |hs| == r.certified[h].height - r.start + 1 && hs[0] == h
      && (forall i | 0 <= i < |hs| :: hs[i] in r.certified && r.certified[hs[i]].height == r.certified[h].height - i
            && Backed(r, hs[i], r.certified[hs[i]]))
      && (forall i | 0 <= i < |hs| - 1 :: r.certified[hs[i]].previous == hs[i + 1])
    decreases r.certified[h].height
  {
    assert Rests(r, r.certified[h]) && Backed(r, h, r.certified[h]);
    if r.certified[h].height != r.start {
      var parent := r.certified[h].previous;
      CertifiedHasWholePrefix(r, parent);
      var hs, rest := Lineage(r, h), Lineage(r, parent);
      assert hs == [h] + rest;
      forall i | 0 <= i < |hs|
        ensures hs[i] in r.certified && r.certified[hs[i]].height == r.certified[h].height - i
                && Backed(r, hs[i], r.certified[hs[i]])
      {
        assert i > 0 ==> hs[i] == rest[i - 1];
      }
      forall i | 0 <= i < |hs| - 1 ensures r.certified[hs[i]].previous == hs[i + 1] {
        assert hs[i + 1] == rest[i];
        assert i > 0 ==> hs[i] == rest[i - 1];
      }
    }
  }
}
