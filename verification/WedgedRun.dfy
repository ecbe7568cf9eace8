/**
  A concrete run that wedges its row: the source loses the target of a fresh walk and then stands
  below the scope's start. Whatever the source answers later, no run gets past the cursor again.
 */
module WedgedRun {
  import opened Wrappers
  import opened HistoryState
  import opened HistorySteps
  import opened HistoryStore
  import opened StartHash
  import opened Backfill
  import opened BackfillCause
  import opened BackfillRun

  const START: nat := 5
  const WANTED := Block(2, 9)
  const STANDS := Block(3, 2)
  const PAGE: nat := 7
  const QUIET := Pause([], false)

  /** Nothing is promised about this source, so nothing it answers is excluded. */
  const SOURCE := Source(Anything, hash => Proof(0, 0), None)

  /** The target is gone and the tip lower than the start; afterwards every request is too large to answer. */
  function Reorganised(i: nat): Turn {
    Turn(false, true, if i == 0 then NotFound else TooLarge, Tip(STANDS), NotFound, true, false, false, QUIET, QUIET)
  }

  /** The run on a fresh scope: the row it leaves is wedged. */
  method LosesItsTarget(store: Store) returns (outcome: Outcome)
    requires store.State() == EmptyRecord(START)
    modifies store
    ensures Good(store.State(), SOURCE) && Stuck(store.State()) && outcome == Failed(CursorBelowFloor)
  {
    FreshScopeIsGood(START, SOURCE);
    var refused;
    ghost var asked;
    outcome, refused, asked := Run(store, WANTED, PAGE, None, true, Reorganised, 1, SOURCE);
    FirstTurnWedges(ScopeOf(EmptyRecord(START), SOURCE, None), asked, refused, store.State(), outcome);
  }

  lemma FirstTurnWedges(scope: Scope, asked: seq<Coverage>, refused: bool, after: Record, o: Outcome)
    requires scope.start == START
    requires RunCause(EmptyRecord(START), scope, WANTED, PAGE, true, Reorganised, asked, refused, after, o)
    ensures !Unwedged(START, Reorganised, asked)
    ensures |asked| == 2 && o == Failed(CursorBelowFloor)
  {
    assert Wedges(START, asked[0], Reorganised(0));
    if |asked| == 1 {
      EndsOrGoesOn(scope, asked[0], Reorganised(0), refused, after, o);
    }
    assert GoesOn(scope, asked[0], Reorganised(0), asked[0 + 1]);
    assert Requested(asked[1]).None?;
    SecondStops(scope, asked);
  }

  lemma SecondStops(scope: Scope, asked: seq<Coverage>)
    requires |asked| >= 2 && Requested(asked[1]).None?
    ensures GoesOnAlong(scope, Reorganised, asked) ==> |asked| == 2
  {
    if |asked| > 2 {
      assert !GoesOn(scope, asked[1], Reorganised(1), asked[1 + 1]);
    }
  }

  /** The next run, on the source's new branch and with any answers, leaves the row as unusable as it was. */
  method NeverRecovers(store: Store, tip: Block, configured: nat, script: nat -> Turn, calm: nat) returns (outcome: Outcome)
    requires Good(store.State(), SOURCE) && Stuck(store.State()) && store.start <= tip.height
    requires forall i: nat :: i >= calm ==> !Replaces(script(i))
    requires Proceeds(script(0))
    modifies store
    ensures Good(store.State(), SOURCE) && Stuck(store.State())
    ensures outcome == if Quarantine(old(store.State())) then QuarantinedScope(tip) else Failed(CursorBelowFloor)
  {
    ghost var before := store.State();
    var refused;
    ghost var asked;
    outcome, refused, asked := Run(store, tip, configured, None, true, script, calm, SOURCE);
    WedgedRunFails(before, ScopeOf(before, SOURCE, None), tip, configured, true, script, asked, refused, store.State(), outcome);
  }
}
