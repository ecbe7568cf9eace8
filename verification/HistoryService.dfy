/**
  The block-history worker over the history record: each pass of a service is a run of the walk on
  the instance's own scope, and what the worker settles afterwards is true of that record.
 */
module HistoryService {
  import opened Wrappers
  import opened HistoryState
  import opened Certification
  import opened HistorySteps
  import opened HistoryCursor
  import opened HistoryStore
  import opened StartHash
  import opened Backfill
  import opened BackfillCause
  import opened BackfillRun
  import Scheduler

  /** What one pass meets: the walk's own environment, then what the worker reads after it. */
  datatype Round = Round(
    current: bool,
    script: nat -> Turn,
    calm: nat,
    healthStored: bool,
    currentAfter: Scheduler.Stored,
    tipAfter: Scheduler.TipRead)

  ghost predicate Playable(source: Source, round: Round) {
    && (forall i: nat :: HonestTurn(source, round.script(i)))
    && (forall i: nat :: i >= round.calm ==> !Replaces(round.script(i)))
  }

  function BlockOf(tip: Scheduler.Tip): Block {
    Block(tip.hash, tip.height)
  }

  function TipOf(block: Block): Scheduler.Tip {
    Scheduler.Tip(block.hash, block.height)
  }

  /** How the worker sees the end of a walk; one that does not return is no pass. */
  function Seen(o: Outcome): (seen: Option<Scheduler.Outcome>)
    ensures seen.None? <==> o.Crashed?
  {
    match o
    case UpToDate(target) => Some(Scheduler.Reached(TipOf(target)))
    case Completed(target) => Some(Scheduler.Reached(TipOf(target)))
    case Deferred(target) => Some(Scheduler.Deferred(TipOf(target)))
    case SupersededScope(_) => Some(Scheduler.Superseded)
    case Interrupted(_) => Some(Scheduler.Interrupted)
    case QuarantinedScope(_) => Some(Scheduler.Quarantined)
    case Failed(_) => Some(Scheduler.Broken)
    case Crashed => None
  }

  function PassOf(seen: Scheduler.Outcome, round: Round): Scheduler.Pass {
    Scheduler.Pass(seen, round.healthStored, round.currentAfter, round.tipAfter)
  }

  // ---------------------------------------------------------------- what the ledger says about the record

  /** Every tip the ledger calls covered for this instance is certified in its scope. */
  ghost predicate LedgerTrue(log: seq<Scheduler.Entry>, instance: Scheduler.Instance, r: Record) {
    forall j | 0 <= j < |log| && log[j].Settled? && log[j].instance == instance && log[j].how.Covered? ::
      log[j].how.read.hash in r.certified
  }

  /** Proofs are never lost, so what the ledger once said of the record stays true. */
  lemma LedgerStaysTrue(log: seq<Scheduler.Entry>, instance: Scheduler.Instance, before: Record, after: Record)
    requires LedgerTrue(log, instance, before) && Keeps(before, after)
    ensures LedgerTrue(log, instance, after)
  {
  }

  /** A covered tip has its whole stored prefix: a certified block at every height down to the scope's start. */
  lemma CoveredHasWholePrefix(log: seq<Scheduler.Entry>, instance: Scheduler.Instance, r: Record, j: nat, height: nat)
    requires LedgerTrue(log, instance, r) && Sound(r) && j < |log|
    requires log[j].Settled? && log[j].instance == instance && log[j].how.Covered?
    requires r.start <= height <= r.certified[log[j].how.read.hash].height
    ensures exists h :: h in r.certified && r.certified[h].height == height && Backed(r, h, r.certified[h])
  {
    var tip := log[j].how.read.hash;
    CertifiedHasWholePrefix(r, tip);
    var i := r.certified[tip].height - height;
    assert Lineage(r, tip)[i] in r.certified;
  }

  lemma EvolvingKeeps(before: Record, after: Record)
    requires Evolves(before, after)
    ensures Keeps(before, after)
  {
  }

  /** What a walk's outcome means for what follows it. */
  ghost predicate OutcomeTrue(r: Record, tip: Block, round: Round, o: Outcome) {
    && (o.UpToDate? || o.Completed? ==> o.target.hash in r.certified)
    && (o.UpToDate? ==> o.target == tip)
    && (o.QuarantinedScope? ==> Quarantine(r) && HasConflict(r))
    && (o.SupersededScope? ==> !round.current || exists k: nat :: LosesScope(round.script(k)))
    && (!round.current ==> o.SupersededScope?)
  }

  /** The iteration finds that the scope's instance is not current, or no longer so. */
  predicate LosesScope(turn: Turn) {
    !turn.current || !turn.currentAtSettlement
  }

  /** The walk reached its target and the tip has moved: another pass on the fresh tip. */
  predicate AsksAgain(instance: Scheduler.Instance, o: Outcome, round: Round, next: Scheduler.Tip) {
    && (o.UpToDate? || o.Completed?) && round.currentAfter == Some(Some(instance.id))
    && round.tipAfter == Scheduler.Current(next) && next.hash != o.target.hash
  }

  /** A retry of the instance for this target waits, unless one of its own already did. */
  predicate RetriesAt(s: Scheduler.Board, t: Scheduler.Board, instance: Scheduler.Instance, target: Block) {
    && instance.id in t.deferred && t == s.(deferred := t.deferred, retries := t.retries)
    && (instance.id in s.deferred ==> t == s)
    && (instance.id !in s.deferred ==>
          && t.deferred == s.deferred + {instance.id}
          && t.retries == s.retries + [Scheduler.Request(instance, TipOf(target))])
  }

  /** The instance leaves the activations, settled as inactive. */
  predicate Drops(s: Scheduler.Board, t: Scheduler.Board, instance: Scheduler.Instance) {
    t == s.(activations := s.activations - {instance.slot},
            log := s.log + [Scheduler.Settled(instance, Scheduler.Inactive)])
  }

  /** What the worker is left with after the last walk of a service, by the walk's outcome. */
  predicate AfterWalk(s: Scheduler.Board, t: Scheduler.Board, instance: Scheduler.Instance, o: Outcome, round: Round,
                      exit: Option<Scheduler.Exit>)
  {
    match o
    case Deferred(target) => RetriesAt(s, t, instance, target) && exit.None?
    case SupersededScope(_) => Drops(s, t, instance) && exit.None?
    case Interrupted(_) => t == s && exit == Some(Scheduler.ShutDown)
    case Failed(_) => t == s && exit == Some(Scheduler.Failed)
    case Crashed => t == s && exit == Some(Scheduler.Killed)
    case QuarantinedScope(_) =>
      if round.healthStored then t == s.(log := s.log + [Scheduler.Settled(instance, Scheduler.Quarantine)]) && exit.None?
      else t == s && exit == Some(Scheduler.Failed)
    case _ =>
      if round.currentAfter.None? then t == s && exit == Some(Scheduler.Failed)
      else if round.currentAfter.value != Some(instance.id) then Drops(s, t, instance) && exit.None?
      else
        match round.tipAfter
        case Fatal => t == s && exit == Some(Scheduler.Failed)
        case Unreachable => RetriesAt(s, t, instance, o.target) && exit.None?
        case Current(tip) =>
          && tip.hash == o.target.hash && exit.None?
          && t == s.(log := s.log + [Scheduler.Settled(instance, Scheduler.Covered(TipOf(o.target), tip))])
  }

  lemma WalkIsFollowedUp(s: Scheduler.Board, instance: Scheduler.Instance, o: Outcome, round: Round)
    requires Seen(o).Some?
    ensures var end := Scheduler.EndOfPass(instance, PassOf(Seen(o).value, round));
      && (end.Continues? ==> AsksAgain(instance, o, round, end.tip) && Scheduler.Finished(s, instance, end) == s)
      && (!end.Continues? ==> AfterWalk(s, Scheduler.Finished(s, instance, end), instance, o, round, Scheduler.ExitOf(end)))
  {
    assert s.log + [] == s.log && s.retries + [] == s.retries && s.deferred + {} == s.deferred;
  }

  lemma RunOutcomeIsTrue(before: Record, scope: Scope, tip: Block, configured: nat, round: Round, asked: seq<Coverage>,
                         refused: bool, after: Record, o: Outcome, source: Source)
    requires Good(after, source) && Ended(before, after, o) && (round.current && asked == [] ==> after == before)
    requires RunCause(before, scope, tip, configured, round.current, round.script, asked, refused, after, o)
    ensures OutcomeTrue(after, tip, round, o)
  {
    AsksNothingIff(before, scope, tip, configured, round.current, round.script, asked, refused, after, o);
    hide Sound, ConflictsExact, Trusted, StartInv, FloorInv, Trail, IsPart, IsLast, IsFatal, IsDeferred, FindsConflict;
    if asked != [] && o.SupersededScope? {
      assert LosesScope(round.script(|asked| - 1));
    }
  }

  /** The worker settles only what the walk's outcome says. */
  lemma SettlementIsTrue(log: seq<Scheduler.Entry>, instance: Scheduler.Instance, r: Record, tip: Block, o: Outcome, round: Round)
    requires LedgerTrue(log, instance, r) && OutcomeTrue(r, tip, round, o) && Seen(o).Some?
    ensures var end := Scheduler.EndOfPass(instance, PassOf(Seen(o).value, round));
      && LedgerTrue(log + Scheduler.Logged(instance, end), instance, r)
      && (end == Scheduler.Closes(Scheduler.Quarantine) ==> Quarantine(r))
  {
  }

  // ---------------------------------------------------------------- one service

  /** One walk of a service: the tip it was asked for, its course, how it ended, and the records around it. */
  datatype Walk = Walk(tip: Scheduler.Tip, asked: seq<Coverage>, refused: bool, outcome: Outcome, before: Record, after: Record)

  /** The walk is a run of `run_history` on the record. */
  ghost predicate IsRun(source: Source, configured: nat, expectedStart: Option<Hash>, round: Round, w: Walk) {
    && RunCause(w.before, ScopeOf(w.before, source, expectedStart), BlockOf(w.tip), configured, round.current, round.script,
                w.asked, w.refused, w.after, w.outcome)
    && Ended(w.before, w.after, w.outcome)
    && OutcomeTrue(w.after, BlockOf(w.tip), round, w.outcome)
  }

  /** Runs one after the other: the first to the requested tip, each next one to the tip read after the one before it. */
  ghost predicate Course(source: Source, configured: nat, expectedStart: Option<Hash>, instance: Scheduler.Instance,
                         requested: Scheduler.Tip, first: Record, rounds: seq<Round>, walks: seq<Walk>)
  {
    && |walks| <= |rounds|
    && (walks != [] ==> walks[0].tip == requested && walks[0].before == first)
    && (forall k: nat | k < |walks| :: IsRun(source, configured, expectedStart, rounds[k], walks[k]))
    && forall k: nat | k + 1 < |walks| ::
         AsksAgain(instance, walks[k].outcome, rounds[k], walks[k + 1].tip) && walks[k + 1].before == walks[k].after
  }

  /** The next walk would go to `target`. */
  predicate Awaits(instance: Scheduler.Instance, requested: Scheduler.Tip, rounds: seq<Round>, walks: seq<Walk>,
                   target: Scheduler.Tip)
  {
    && |walks| <= |rounds|
    && if walks == [] then target == requested
       else AsksAgain(instance, walks[|walks| - 1].outcome, rounds[|walks| - 1], target)
  }

  /** The record after these walks. */
  function Left(first: Record, walks: seq<Walk>): Record {
    if walks == [] then first else walks[|walks| - 1].after
  }

  /** The service ends with its last walk; if that one asks again, the process died before the next. */
  ghost predicate ServiceOver(s: Scheduler.Board, t: Scheduler.Board, instance: Scheduler.Instance, rounds: seq<Round>,
                              walks: seq<Walk>, exit: Option<Scheduler.Exit>)
  {
    var n := |walks| - 1;
    if walks == [] || (|walks| <= |rounds| && exists next :: AsksAgain(instance, walks[n].outcome, rounds[n], next))
    then |walks| == |rounds| && t == s && exit == Some(Scheduler.Killed)
    else |walks| <= |rounds| && AfterWalk(s, t, instance, walks[n].outcome, rounds[n], exit)
  }

  lemma OneWalkMore(source: Source, configured: nat, expectedStart: Option<Hash>, instance: Scheduler.Instance,
                    requested: Scheduler.Tip, first: Record, rounds: seq<Round>, walks: seq<Walk>, w: Walk)
    requires Course(source, configured, expectedStart, instance, requested, first, rounds, walks) && |walks| < |rounds|
    requires w.before == Left(first, walks) && Awaits(instance, requested, rounds, walks, w.tip)
    requires IsRun(source, configured, expectedStart, rounds[|walks|], w)
    ensures Course(source, configured, expectedStart, instance, requested, first, rounds, walks + [w])
    ensures Left(first, walks + [w]) == w.after
    ensures forall next | AsksAgain(instance, w.outcome, rounds[|walks|], next) ::
      Awaits(instance, requested, rounds, walks + [w], next)
  {
    hide AsksAgain, IsRun;
    var more := walks + [w];
    forall k: nat | k + 1 < |more|
      ensures AsksAgain(instance, more[k].outcome, rounds[k], more[k + 1].tip) && more[k + 1].before == more[k].after
    {
      assert k + 1 < |walks| ==> AsksAgain(instance, walks[k].outcome, rounds[k], walks[k + 1].tip);
    }
  }

  lemma RoundsUsedUp(s: Scheduler.Board, instance: Scheduler.Instance, requested: Scheduler.Tip, rounds: seq<Round>,
                     walks: seq<Walk>, target: Scheduler.Tip)
    requires |walks| == |rounds| && Awaits(instance, requested, rounds, walks, target)
    ensures ServiceOver(s, s, instance, rounds, walks, Some(Scheduler.Killed))
  {
  }

  lemma NoWalkYet(source: Source, configured: nat, expectedStart: Option<Hash>, instance: Scheduler.Instance,
                  requested: Scheduler.Tip, first: Record, rounds: seq<Round>)
    ensures Course(source, configured, expectedStart, instance, requested, first, rounds, [])
    ensures Awaits(instance, requested, rounds, [], requested) && Left(first, []) == first
  {
  }

  lemma LastWalk(s: Scheduler.Board, t: Scheduler.Board, instance: Scheduler.Instance, rounds: seq<Round>,
                 walks: seq<Walk>, w: Walk, exit: Option<Scheduler.Exit>)
    requires |walks| < |rounds| && AfterWalk(s, t, instance, w.outcome, rounds[|walks|], exit)
    ensures ServiceOver(s, t, instance, rounds, walks + [w], exit)
  {
    var more := walks + [w];
    assert more[|walks|] == w;
    forall next ensures !AsksAgain(instance, w.outcome, rounds[|walks|], next) {
    }
  }

  /**
    The passes of one service: the walk runs on the instance's record, the worker looks at its
    outcome, and a tip that moved meanwhile asks for another pass. `passes` is what the worker saw.
   */
  method ServeInstance(worker: Scheduler.Worker, store: Store, instance: Scheduler.Instance, requested: Scheduler.Tip,
                       configured: nat, expectedStart: Option<Hash>, rounds: seq<Round>, ghost source: Source)
    returns (exit: Option<Scheduler.Exit>, ghost passes: seq<Scheduler.Pass>, ghost walks: seq<Walk>)
    requires Good(store.State(), source) && (source.Linked() ==> expectedStart == source.startHash)
    requires forall round | round in rounds :: Playable(source, round)
    requires LedgerTrue(worker.log, instance, store.State())
    modifies store, worker`activations, worker`deferred, worker`retries, worker`log
    ensures Good(store.State(), source) && Evolves(old(store.State()), store.State())
    ensures LedgerTrue(worker.log, instance, store.State())
    ensures Course(source, configured, expectedStart, instance, requested, old(store.State()), rounds, walks)
    ensures store.State() == Left(old(store.State()), walks)
    ensures ServiceOver(old(worker.State()), worker.State(), instance, rounds, walks, exit)
    ensures SeenAs(old(worker.State()), worker.State(), instance, passes, store.State(), exit)
  {
    var target := requested;
    passes, walks := [], [];
    ghost var first := store.State();
    EvolvesReflexive(first);
    KilledLeavesAll(worker.State(), instance, first);
    NoWalkYet(source, configured, expectedStart, instance, requested, first, rounds);
    hide Good, Evolves, LedgerTrue, Playable, AsksAgain, AfterWalk, IsRun, Course, Awaits, Left, ServiceOver, SeenAs,
      AllAgain;
    for i := 0 to |rounds|
      invariant worker.State() == old(worker.State())
      invariant Good(store.State(), source) && Evolves(first, store.State())
      invariant LedgerTrue(worker.log, instance, store.State())
      invariant |walks| == i && store.State() == Left(first, walks)
      invariant Course(source, configured, expectedStart, instance, requested, first, rounds, walks)
      invariant Awaits(instance, requested, rounds, walks, target)
      invariant AllAgain(instance, passes)
    {
      assert rounds[i] in rounds;
      ghost var before, done := store.State(), walks;
      var again;
      ghost var pass, w;
      again, target, exit, pass, w := OnePass(worker, store, instance, target, configured, expectedStart, rounds[i], source);
      EvolvesTransitive(first, before, store.State());
      OneWalkMore(source, configured, expectedStart, instance, requested, first, rounds, walks, w);
      PassesAdd(old(worker.State()), worker.State(), instance, passes, pass, store.State(), exit);
      walks, passes := walks + [w], passes + pass;
      if !again {
        LastWalk(old(worker.State()), worker.State(), instance, rounds, done, w, exit);
        return exit, passes, walks;
      }
    }
    KilledLeavesAll(worker.State(), instance, store.State());
    PassesAdd(worker.State(), worker.State(), instance, passes, [], store.State(), Some(Scheduler.Killed));
    assert passes + [] == passes;
    RoundsUsedUp(worker.State(), instance, requested, rounds, walks, target);
    return Some(Scheduler.Killed), passes, walks;
  }

  /** One pass: the walk, and what the worker does about it; a process that dies in the walk leaves no pass. */
  method OnePass(worker: Scheduler.Worker, store: Store, instance: Scheduler.Instance, target: Scheduler.Tip,
                 configured: nat, expectedStart: Option<Hash>, round: Round, ghost source: Source)
    returns (again: bool, next: Scheduler.Tip, exit: Option<Scheduler.Exit>, ghost pass: seq<Scheduler.Pass>, ghost w: Walk)
    requires Good(store.State(), source) && (source.Linked() ==> expectedStart == source.startHash)
    requires Playable(source, round) && LedgerTrue(worker.log, instance, store.State())
    modifies store, worker`activations, worker`deferred, worker`retries, worker`log
    ensures Good(store.State(), source) && Evolves(old(store.State()), store.State())
    ensures LedgerTrue(worker.log, instance, store.State())
    ensures w.tip == target && w.before == old(store.State()) && w.after == store.State()
    ensures IsRun(source, configured, expectedStart, round, w)
    ensures again ==>
      && worker.State() == old(worker.State()) && AsksAgain(instance, w.outcome, round, next)
      && AllAgain(instance, pass)
    ensures !again ==>
      && AfterWalk(old(worker.State()), worker.State(), instance, w.outcome, round, exit)
      && |pass| <= 1 && SeenAs(old(worker.State()), worker.State(), instance, pass, store.State(), exit)
  {
    hide Good, Evolves, LedgerTrue, Playable, AsksAgain, AfterWalk, OutcomeTrue, IsRun, PassOf, Seen,
      Scheduler.EndOfPass, Scheduler.Finished;
    ghost var before, s := store.State(), worker.State();
    again, next, exit, pass := false, target, None, [];
    var outcome;
    outcome, w := WalkScope(store, target, configured, expectedStart, round, source);
    EvolvingKeeps(before, store.State());
    LedgerStaysTrue(worker.log, instance, before, store.State());
    if outcome.Crashed? {
      CrashEndsService(s, instance, round);
      KilledLeavesAll(s, instance, store.State());
      exit := Some(Scheduler.Killed);
      return;
    }
    var seen := PassOf(Seen(outcome).value, round);
    pass := [seen];
    RunIsTrue(source, configured, expectedStart, round, w);
    SettlementIsTrue(worker.log, instance, store.State(), BlockOf(target), outcome, round);
    WalkIsFollowedUp(s, instance, outcome, round);
    FinishedLog(s, instance, Scheduler.EndOfPass(instance, seen));
    again, next, exit := worker.AfterPass(instance, target, seen);
  }

  /** The worker ended as the passes it saw say. */
  ghost predicate SeenAs(s: Scheduler.Board, t: Scheduler.Board, instance: Scheduler.Instance, passes: seq<Scheduler.Pass>,
                         r: Record, exit: Option<Scheduler.Exit>)
  {
    var end := Scheduler.EndOfPasses(instance, passes);
    && t == Scheduler.Finished(s, instance, end) && exit == Scheduler.ExitOf(end)
    && (end == Scheduler.Closes(Scheduler.Quarantine) ==> Quarantine(r))
  }

  ghost predicate AllAgain(instance: Scheduler.Instance, passes: seq<Scheduler.Pass>) {
    forall k | 0 <= k < |passes| :: Scheduler.EndOfPass(instance, passes[k]).Continues?
  }

  /** While every pass asks for another one, the next decides. */
  lemma PassesAdd(s: Scheduler.Board, t: Scheduler.Board, instance: Scheduler.Instance, passes: seq<Scheduler.Pass>,
                  pass: seq<Scheduler.Pass>, r: Record, exit: Option<Scheduler.Exit>)
    requires AllAgain(instance, passes)
    ensures SeenAs(s, t, instance, pass, r, exit) ==> SeenAs(s, t, instance, passes + pass, r, exit)
    ensures AllAgain(instance, pass) ==> AllAgain(instance, passes + pass)
  {
    Scheduler.PassesUpTo(instance, passes + pass, |passes|);
    assert (passes + pass)[|passes|..] == pass;
  }

  lemma FinishedLog(s: Scheduler.Board, instance: Scheduler.Instance, end: Scheduler.End)
    ensures Scheduler.Finished(s, instance, end).log == s.log + Scheduler.Logged(instance, end)
  {
  }

  lemma KilledLeavesAll(s: Scheduler.Board, instance: Scheduler.Instance, r: Record)
    ensures SeenAs(s, s, instance, [], r, Some(Scheduler.Killed)) && AllAgain(instance, [])
  {
    assert s.log + [] == s.log && s.retries + [] == s.retries && s.deferred + {} == s.deferred;
  }

  lemma CrashEndsService(s: Scheduler.Board, instance: Scheduler.Instance, round: Round)
    ensures AfterWalk(s, s, instance, Crashed, round, Some(Scheduler.Killed))
  {
  }

  lemma RunIsTrue(source: Source, configured: nat, expectedStart: Option<Hash>, round: Round, w: Walk)
    requires IsRun(source, configured, expectedStart, round, w)
    ensures OutcomeTrue(w.after, BlockOf(w.tip), round, w.outcome)
  {
  }

  /** One pass on the instance's record. */
  method WalkScope(store: Store, tip: Scheduler.Tip, configured: nat, expectedStart: Option<Hash>, round: Round,
                   ghost source: Source)
    returns (outcome: Outcome, ghost w: Walk)
    requires Good(store.State(), source) && (source.Linked() ==> expectedStart == source.startHash)
    requires Playable(source, round)
    modifies store
    ensures Good(store.State(), source) && Evolves(old(store.State()), store.State())
    ensures w.tip == tip && w.outcome == outcome && w.before == old(store.State()) && w.after == store.State()
    ensures IsRun(source, configured, expectedStart, round, w)
  {
    ghost var before := store.State();
    hide Good, Evolves, OutcomeTrue, Ended, RunCause;
    var refused;
    ghost var asked;
    outcome, refused, asked :=
      Run(store, BlockOf(tip), configured, expectedStart, round.current, round.script, round.calm, source);
    w := Walk(tip, asked, refused, outcome, before, store.State());
    RunOutcomeIsTrue(before, ScopeOf(before, source, expectedStart), BlockOf(tip), configured, round, asked, refused,
                     store.State(), outcome, source);
  }
}
