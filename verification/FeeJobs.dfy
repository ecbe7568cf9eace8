/**
  The durable fee queue: which block fact is enriched next, how failed attempts are spaced, and that
  no fact is skipped and none is tried for ever.
 */
module FeeJobs {
  import opened Wrappers

  type Id = nat

  /** Only a pending job has a retry time, as the table's CHECK demands. */
  datatype Status = Pending(retryAt: nat) | Done | Abandoned

  datatype Job = Job(attempts: nat, status: Status)

  /** `facts` are the committed node block facts in commit order. */
  datatype Queue = Queue(facts: seq<Id>, jobs: map<Id, Job>)

  /** One attempt the loop made; `number` counts the attempts at this fact. */
  datatype Attempt = Attempt(id: Id, at: nat, number: nat, done: bool)

  const MAX_ATTEMPTS: nat := 10
  const HOUR: nat := 3600

  function Power2(n: nat): (p: nat)
    ensures p >= 1
  {
    if n == 0 then 1 else 2 * Power2(n - 1)
  }

  /** The wait after the `number`th failed attempt. */
  function Delay(number: nat): nat
    requires number > 0
  {
    if Power2(number - 1) < 24 then Power2(number - 1) * HOUR else 24 * HOUR
  }

  /** One hour at first, then twice the wait before, but never more than a day. */
  lemma DelayDoubles(number: nat)
    requires number > 0
    ensures Delay(1) == 3600
    ensures Delay(number + 1) == if 2 * Delay(number) < 86400 then 2 * Delay(number) else 86400
    ensures 3600 <= Delay(number) <= 86400
  {
    assert Power2(0) == 1 && Power2(number) == 2 * Power2(number - 1);
  }

  function Number(q: Queue, id: Id): nat {
    if id in q.jobs then q.jobs[id].attempts + 1 else 1
  }

  /** `schedule_fee_job`: the row one attempt leaves. */
  function Scheduled(q: Queue, id: Id, done: bool, now: nat): Job {
    var number := Number(q, id);
    if done then Job(number, Done)
    else if id in q.jobs && number >= MAX_ATTEMPTS then Job(number, Abandoned)
    else Job(number, Pending(now + Delay(number)))
  }

  function Schedule(q: Queue, id: Id, done: bool, now: nat): Queue {
    q.(jobs := q.jobs[id := Scheduled(q, id, done, now)])
  }

  predicate Fresh(q: Queue, id: Id) {
    id in q.facts && id > 0 && forall j | j in q.jobs :: j < id
  }

  predicate DueBy(q: Queue, id: Id, now: nat) {
    id in q.jobs && q.jobs[id].status.Pending? && q.jobs[id].status.retryAt <= now
  }

  function RetryTime(q: Queue, id: Id): nat {
    if id in q.jobs && q.jobs[id].status.Pending? then q.jobs[id].status.retryAt else 0
  }

  predicate SoonestDue(q: Queue, id: Id, now: nat) {
    DueBy(q, id, now) && forall j | j in q.jobs && DueBy(q, j, now) :: RetryTime(q, id) <= RetryTime(q, j)
  }

  /** `next_fee_block`: the least fact above every job, else a retry that has been due the longest. */
  predicate Picks(q: Queue, id: Id, now: nat) {
    if exists f | f in q.facts :: Fresh(q, f)
    then Fresh(q, id) && forall f | f in q.facts && Fresh(q, f) :: id <= f
    else SoonestDue(q, id, now)
  }

  // ---------------------------------------------------------------- runs

  datatype Step = Commit(id: Id) | Try(id: Id, at: nat, done: bool)

  datatype World = World(queue: Queue, log: seq<Attempt>)

  predicate Enabled(w: World, step: Step) {
    match step
    case Commit(id) => id > 0 && id !in w.queue.facts
    case Try(id, at, _) => Picks(w.queue, id, at)
  }

  function Apply(w: World, step: Step): World {
    if !Enabled(w, step) then w
    else
      match step
      case Commit(id) => w.(queue := w.queue.(facts := w.queue.facts + [id]))
      case Try(id, at, done) =>
        World(Schedule(w.queue, id, done, at), w.log + [Attempt(id, at, Number(w.queue, id), done)])
  }

  function Play(w: World, steps: seq<Step>): World
    decreases |steps|
  {
    if steps == [] then w else Play(Apply(w, steps[0]), steps[1..])
  }

  const EMPTY := World(Queue([], map[]), [])

  /** Facts become visible in id order, which the write-order lock provides. */
  predicate InOrder(w: World, steps: seq<Step>)
    decreases |steps|
  {
    steps != [] ==>
      && (steps[0].Commit? ==> forall f | f in w.queue.facts :: f < steps[0].id)
      && InOrder(Apply(w, steps[0]), steps[1..])
  }

  // ---------------------------------------------------------------- nothing is skipped

  ghost predicate Ascending(ids: seq<Id>) {
    && (forall i | 0 <= i < |ids| :: ids[i] > 0)
    && forall i, j | 0 <= i < j < |ids| :: ids[i] < ids[j]
  }

  /** The ids are exactly the first facts. */
  ghost predicate IsPrefix(ids: set<Id>, facts: seq<Id>) {
    && |ids| <= |facts|
    && (forall i | 0 <= i < |facts| :: facts[i] in ids <==> i < |ids|)
    && forall j | j in ids :: j in facts
  }

  /** The jobs are exactly the facts up to the largest job. */
  ghost predicate JobsArePrefix(q: Queue) {
    Ascending(q.facts) && IsPrefix(q.jobs.Keys, q.facts)
  }

  lemma NextFactExtends(ids: set<Id>, facts: seq<Id>)
    requires Ascending(facts) && IsPrefix(ids, facts) && |ids| < |facts|
    ensures IsPrefix(ids + {facts[|ids|]}, facts)
  {
    var m, more := |ids|, ids + {facts[|ids|]};
    assert facts[m] !in ids;
    assert |more| == m + 1;
    forall i | 0 <= i < |facts| ensures facts[i] in more <==> i < m + 1 {
      assert facts[i] in ids <==> i < m;
      assert i < m ==> facts[i] < facts[m];
      assert m < i ==> facts[m] < facts[i];
    }
  }

  /** A fact is above every job exactly when it lies past the prefix. */
  lemma FreshIff(q: Queue, i: nat)
    requires JobsArePrefix(q) && i < |q.facts|
    ensures Fresh(q, q.facts[i]) <==> i >= |q.jobs|
  {
    if i >= |q.jobs| {
      forall j | j in q.jobs ensures j < q.facts[i] {
        var k :| 0 <= k < |q.facts| && q.facts[k] == j;
      }
    }
  }

  lemma FreshIsNext(q: Queue)
    requires JobsArePrefix(q)
    ensures (exists f :: f in q.facts && Fresh(q, f)) <==> |q.jobs| < |q.facts|
    ensures |q.jobs| < |q.facts| ==> Fresh(q, q.facts[|q.jobs|])
    ensures forall f | f in q.facts && Fresh(q, f) :: |q.jobs| < |q.facts| && q.facts[|q.jobs|] <= f
  {
    forall f | f in q.facts && Fresh(q, f) ensures |q.jobs| < |q.facts| && q.facts[|q.jobs|] <= f {
      var i :| 0 <= i < |q.facts| && q.facts[i] == f;
      FreshIff(q, i);
    }
    if |q.jobs| < |q.facts| {
      FreshIff(q, |q.jobs|);
    }
  }

  lemma PicksMeaning(q: Queue, id: Id, now: nat)
    requires JobsArePrefix(q)
    ensures Picks(q, id, now) <==>
      if |q.jobs| < |q.facts| then id == q.facts[|q.jobs|] else SoonestDue(q, id, now)
  {
    FreshIsNext(q);
  }

  /** A new fact is the first one without a job; a retry is due, and no open job has been due for longer. */
  lemma PickedIs(q: Queue, id: Id, now: nat)
    requires JobsArePrefix(q) && Picks(q, id, now)
    ensures |q.jobs| < |q.facts| ==> id == q.facts[|q.jobs|]
    ensures |q.jobs| >= |q.facts| ==>
      && id in q.jobs && q.jobs[id].status.Pending? && q.jobs[id].status.retryAt <= now
      && forall j | j in q.jobs && q.jobs[j].status.Pending? :: q.jobs[id].status.retryAt <= q.jobs[j].status.retryAt
  {
    PicksMeaning(q, id, now);
  }

  lemma ScheduleKeepsPrefix(q: Queue, id: Id, done: bool, now: nat)
    requires JobsArePrefix(q) && Picks(q, id, now)
    ensures JobsArePrefix(Schedule(q, id, done, now))
  {
    hide Picks, Fresh, Scheduled;
    PicksMeaning(q, id, now);
    assert Schedule(q, id, done, now).jobs.Keys == q.jobs.Keys + {id};
    if |q.jobs| < |q.facts| {
      NextFactExtends(q.jobs.Keys, q.facts);
    } else {
      assert q.jobs.Keys + {id} == q.jobs.Keys;
    }
  }

  lemma CommitKeepsPrefix(q: Queue, id: Id)
    requires JobsArePrefix(q) && id > 0 && forall f | f in q.facts :: f < id
    ensures JobsArePrefix(q.(facts := q.facts + [id]))
  {
    var more := q.facts + [id];
    assert forall i | 0 <= i < |q.facts| :: more[i] == q.facts[i] && q.facts[i] in q.facts;
    assert id !in q.jobs;
  }

  // ---------------------------------------------------------------- every job ends

  predicate JobGood(j: Job) {
    && 1 <= j.attempts <= MAX_ATTEMPTS
    && (j.status.Pending? ==> j.attempts < MAX_ATTEMPTS)
    && (j.status.Abandoned? ==> j.attempts == MAX_ATTEMPTS)
  }

  /** The row after an attempt at an open job: done, given up at the tenth failure, or open for one more after the wait. */
  lemma RowAfterAttempt(q: Queue, id: Id, done: bool, now: nat)
    requires id in q.jobs ==> q.jobs[id].attempts >= 1
    ensures var before, row := if id in q.jobs then q.jobs[id].attempts else 0, Schedule(q, id, done, now).jobs[id];
      && row.attempts == before + 1
      && (row.status.Done? <==> done)
      && (row.status.Abandoned? <==> !done && row.attempts >= 10)
      && (row.status.Pending? ==> now + 3600 <= row.status.retryAt == now + Delay(row.attempts) <= now + 86400)
    ensures forall other | other != id ::
      (other in Schedule(q, id, done, now).jobs <==> other in q.jobs)
      && (other in q.jobs ==> Schedule(q, id, done, now).jobs[other] == q.jobs[other])
  {
    if Number(q, id) < 10 {
      DelayDoubles(Number(q, id));
    }
  }

  function Tries(log: seq<Attempt>, id: Id): nat {
    if log == [] then 0 else Tries(log[..|log| - 1], id) + if log[|log| - 1].id == id then 1 else 0
  }

  /** The last attempt at a fact so far. */
  function Last(log: seq<Attempt>, id: Id): Option<Attempt> {
    if log == [] then None
    else if log[|log| - 1].id == id then Some(log[|log| - 1])
    else Last(log[..|log| - 1], id)
  }

  /** An attempt follows the one before it by that one's delay, and never follows a success. */
  predicate Follows(past: seq<Attempt>, a: Attempt) {
    var earlier := Last(past, a.id);
    && a.number == Tries(past, a.id) + 1 <= MAX_ATTEMPTS
    && (earlier.None? <==> a.number == 1)
    && (earlier.Some? ==>
          && !earlier.value.done && 0 < earlier.value.number == a.number - 1
          && a.at >= earlier.value.at + Delay(earlier.value.number))
  }

  predicate Spaced(log: seq<Attempt>) {
    log != [] ==> Spaced(log[..|log| - 1]) && Follows(log[..|log| - 1], log[|log| - 1])
  }

  /** A job row is what the last attempt at its fact left; a fact without one was never tried. */
  predicate MirrorsLast(q: Queue, log: seq<Attempt>, id: Id) {
    var last := Last(log, id);
    if id !in q.jobs then last.None? && Tries(log, id) == 0
    else
      && last.Some? && JobGood(q.jobs[id])
      && 0 < q.jobs[id].attempts == last.value.number == Tries(log, id)
      && (last.value.done <==> q.jobs[id].status.Done?)
      && (q.jobs[id].status.Pending? ==> q.jobs[id].status.retryAt == last.value.at + Delay(last.value.number))
  }

  ghost predicate Mirrored(q: Queue, log: seq<Attempt>) {
    forall id: Id :: MirrorsLast(q, log, id)
  }

  ghost predicate Inv(w: World) {
    JobsArePrefix(w.queue) && Mirrored(w.queue, w.log) && Spaced(w.log)
  }

  lemma Appended(log: seq<Attempt>, a: Attempt, id: Id)
    ensures Tries(log + [a], id) == Tries(log, id) + if a.id == id then 1 else 0
    ensures Last(log + [a], id) == if a.id == id then Some(a) else Last(log, id)
    ensures Spaced(log + [a]) <==> Spaced(log) && Follows(log, a)
  {
    assert (log + [a])[..|log|] == log;
  }

  lemma PickedIsOpen(q: Queue, id: Id, now: nat)
    requires Picks(q, id, now)
    ensures id in q.jobs ==> DueBy(q, id, now)
  {
  }

  lemma TryKeepsLog(q: Queue, log: seq<Attempt>, id: Id, at: nat, done: bool)
    requires Mirrored(q, log) && Spaced(log) && Picks(q, id, at)
    ensures var a := Attempt(id, at, Number(q, id), done);
      Mirrored(Schedule(q, id, done, at), log + [a]) && Spaced(log + [a])
  {
    hide Picks, Tries, Last, Spaced, Delay;
    var a := Attempt(id, at, Number(q, id), done);
    PickedIsOpen(q, id, at);
    assert MirrorsLast(q, log, id);
    Appended(log, a, id);
    forall other: Id ensures MirrorsLast(Schedule(q, id, done, at), log + [a], other) {
      Appended(log, a, other);
      assert MirrorsLast(q, log, other);
    }
  }

  lemma StepKeepsInv(w: World, step: Step)
    requires Inv(w) && (step.Commit? ==> forall f | f in w.queue.facts :: f < step.id)
    ensures Inv(Apply(w, step))
  {
    if Enabled(w, step) {
      match step
      case Commit(id) =>
        CommitKeepsPrefix(w.queue, id);
        forall f: Id ensures MirrorsLast(Apply(w, step).queue, w.log, f) {
          assert MirrorsLast(w.queue, w.log, f);
        }
      case Try(id, at, done) =>
        ScheduleKeepsPrefix(w.queue, id, done, at);
        TryKeepsLog(w.queue, w.log, id, at, done);
    }
  }

  /** Over every run in commit order: no fact skipped, attempts bounded, spaced and ended by success. */
  lemma {:induction false} EveryRunIsFair(w: World, steps: seq<Step>)
    requires Inv(w) && InOrder(w, steps)
    ensures Inv(Play(w, steps))
    decreases |steps|
  {
    if steps != [] {
      StepKeepsInv(w, steps[0]);
      EveryRunIsFair(Apply(w, steps[0]), steps[1..]);
    }
  }

  lemma NothingYet()
    ensures Inv(EMPTY)
  {
  }

  // ---------------------------------------------------------------- what an idle queue means

  predicate Waiting(q: Queue, now: nat) {
    && (forall f | f in q.facts :: f in q.jobs)
    && forall id | id in q.jobs :: q.jobs[id].status.Pending? ==> q.jobs[id].status.retryAt > now
  }

  /** Nothing is picked exactly when every fact has a job and every open job waits for a later time. */
  lemma IdleIff(q: Queue, now: nat)
    requires JobsArePrefix(q)
    ensures (!exists id :: Picks(q, id, now)) <==> Waiting(q, now)
  {
    hide Picks, Fresh;
    forall id ensures Picks(q, id, now) <==>
      if |q.jobs| < |q.facts| then id == q.facts[|q.jobs|] else SoonestDue(q, id, now)
    {
      PicksMeaning(q, id, now);
    }
    if |q.jobs| < |q.facts| {
      assert Picks(q, q.facts[|q.jobs|], now);
      assert q.facts[|q.jobs|] in q.facts;
    } else {
      if id :| id in q.jobs && DueBy(q, id, now) {
        var due := set j | j in q.jobs && DueBy(q, j, now);
        assert id in due;
        var first := Soonest(q, due);
        assert Picks(q, first, now);
      }
      EveryFactHasJob(q);
    }
  }

  lemma EveryFactHasJob(q: Queue)
    requires JobsArePrefix(q) && |q.jobs| == |q.facts|
    ensures forall f | f in q.facts :: f in q.jobs
  {
    forall f | f in q.facts ensures f in q.jobs {
      var i :| 0 <= i < |q.facts| && q.facts[i] == f;
    }
  }

  ghost function Soonest(q: Queue, due: set<Id>): (id: Id)
    requires due != {}
    ensures id in due && forall j | j in due :: RetryTime(q, id) <= RetryTime(q, j)
  {
    var some :| some in due;
    if due == {some} then some
    else
      var rest := Soonest(q, due - {some});
      assert due == {some} + (due - {some});
      if RetryTime(q, some) < RetryTime(q, rest) then some else rest
  }

  // ---------------------------------------------------------------- the total work is bounded

  function Sum(log: seq<Attempt>, facts: seq<Id>): nat {
    if facts == [] then 0 else Sum(log, facts[..|facts| - 1]) + Tries(log, facts[|facts| - 1])
  }

  lemma {:induction false} SumGrows(log: seq<Attempt>, a: Attempt, facts: seq<Id>)
    requires Ascending(facts)
    ensures Sum(log + [a], facts) == Sum(log, facts) + if a.id in facts then 1 else 0
  {
    if facts != [] {
      var init, last := facts[..|facts| - 1], facts[|facts| - 1];
      assert facts == init + [last] && Ascending(init);
      SumGrows(log, a, init);
      assert (log + [a])[..|log|] == log;
    }
  }

  lemma {:induction false} SumCounts(log: seq<Attempt>, facts: seq<Id>)
    requires Ascending(facts) && forall a | a in log :: a.id in facts
    ensures Sum(log, facts) == |log|
  {
    if log == [] {
      EmptySum(facts);
    } else {
      var init, last := log[..|log| - 1], log[|log| - 1];
      assert log == init + [last];
      SumCounts(init, facts);
      SumGrows(init, last, facts);
    }
  }

  lemma {:induction false} EmptySum(facts: seq<Id>)
    ensures Sum([], facts) == 0
  {
    if facts != [] {
      EmptySum(facts[..|facts| - 1]);
    }
  }

  lemma {:induction false} SumBounded(log: seq<Attempt>, facts: seq<Id>)
    requires forall f | f in facts :: Tries(log, f) <= MAX_ATTEMPTS
    ensures Sum(log, facts) <= MAX_ATTEMPTS * |facts|
  {
    if facts != [] {
      assert facts == facts[..|facts| - 1] + [facts[|facts| - 1]];
      SumBounded(log, facts[..|facts| - 1]);
    }
  }

  lemma {:induction false} LoggedHasLast(log: seq<Attempt>, a: Attempt)
    requires a in log
    ensures Last(log, a.id).Some?
  {
    var init := log[..|log| - 1];
    assert log == init + [log[|log| - 1]];
    if log[|log| - 1].id != a.id {
      LoggedHasLast(init, a);
    }
  }

  /** The whole loop makes at most ten attempts for each committed fact. */
  lemma AttemptsAreBounded(w: World)
    requires Inv(w)
    ensures |w.log| <= 10 * |w.queue.facts|
  {
    forall a | a in w.log ensures a.id in w.queue.facts {
      LoggedHasLast(w.log, a);
      assert MirrorsLast(w.queue, w.log, a.id);
    }
    forall f | f in w.queue.facts ensures Tries(w.log, f) <= MAX_ATTEMPTS {
      assert MirrorsLast(w.queue, w.log, f);
    }
    SumCounts(w.log, w.queue.facts);
    SumBounded(w.log, w.queue.facts);
  }

  // ---------------------------------------------------------------- why commit order matters

  /** A fact that becomes visible below the largest job is never picked, whatever happens later. */
  lemma {:induction false} LateFactIsLost(w: World, id: Id, steps: seq<Step>)
    requires id !in w.queue.jobs && exists j :: j in w.queue.jobs && j > id
    ensures id !in Play(w, steps).queue.jobs
    decreases |steps|
  {
    if steps != [] {
      var j :| j in w.queue.jobs && j > id;
      assert j in Apply(w, steps[0]).queue.jobs;
      LateFactIsLost(Apply(w, steps[0]), id, steps[1..]);
    }
  }

  // ---------------------------------------------------------------- the loop

  /** How an attempt ends: the candidates are final or not, or the enrichment failed. */
  datatype Result = Enriched(candidatesFinal: bool) | EnrichmentFailed | Crash

  /**
    One round: facts other workers commit meanwhile, each id some way above the last, the clock, and
    how an attempt would end.
   */
  datatype Round = Round(gaps: seq<nat>, now: nat, result: Result)

  function Largest(facts: seq<Id>): Id {
    if facts == [] then 0 else facts[|facts| - 1]
  }

  lemma LargestIsLast(facts: seq<Id>)
    requires Ascending(facts)
    ensures forall f | f in facts :: f <= Largest(facts)
  {
  }

  function Grown(facts: seq<Id>, gaps: seq<nat>): seq<Id>
    decreases |gaps|
  {
    if gaps == [] then facts else Grown(facts + [Largest(facts) + 1 + gaps[0]], gaps[1..])
  }

  predicate Finishes(round: Round) {
    round.result.Enriched? && round.result.candidatesFinal
  }

  /** An idle round attempts nothing, a crash records nothing, and any other round attempts one picked fact. */
  ghost predicate RoundGoes(w: World, round: Round, v: World) {
    var mid := w.(queue := w.queue.(facts := Grown(w.queue.facts, round.gaps)));
    if Waiting(mid.queue, round.now) || round.result.Crash? then v == mid
    else exists id :: Picks(mid.queue, id, round.now) && v == Apply(mid, Try(id, round.now, round.result == Enriched(true)))
  }

  ghost predicate TrailGoes(trail: seq<World>, rounds: seq<Round>) {
    && |trail| <= |rounds| + 1
    && forall i | 0 <= i < |trail| - 1 :: RoundGoes(trail[i], rounds[i], trail[i + 1])
  }

  lemma InvMeansPrefix(w: World)
    requires Inv(w)
    ensures JobsArePrefix(w.queue)
  {
  }

  lemma TryApplies(w: World, step: Step)
    requires step.Try? && Picks(w.queue, step.id, step.at)
    ensures Apply(w, step) == World(Schedule(w.queue, step.id, step.done, step.at),
                                    w.log + [Attempt(step.id, step.at, Number(w.queue, step.id), step.done)])
  {
  }

  class Fees {
    var facts: seq<Id>
    var jobs: map<Id, Job>

    function State(): Queue
      reads this
    {
      Queue(facts, jobs)
    }

    constructor ()
      ensures State() == EMPTY.queue && Inv(EMPTY)
    {
      facts, jobs := [], map[];
      new;
      NothingYet();
    }

    /** `next_fee_block`. */
    method NextFeeBlock(now: nat) returns (id: Option<Id>)
      requires JobsArePrefix(State())
      ensures id.Some? ==> Picks(State(), id.value, now)
      ensures id.None? <==> Waiting(State(), now)
      ensures id.Some? && |jobs| < |facts| ==> id.value == facts[|jobs|]
      ensures id.Some? && |jobs| >= |facts| ==>
        && id.value in jobs && jobs[id.value].status.Pending? && jobs[id.value].status.retryAt <= now
        && forall j | j in jobs && jobs[j].status.Pending? :: jobs[id.value].status.retryAt <= jobs[j].status.retryAt
    {
      hide Picks, Fresh;
      ghost var q := State();
      IdleIff(q, now);
      FreshIsNext(q);
      if exists f :: f in facts && Fresh(State(), f) {
        var f :| f in facts && Fresh(State(), f) && forall g | g in facts && Fresh(State(), g) :: f <= g;
        PicksMeaning(q, f, now);
        PickedIs(q, f, now);
        return Some(f);
      }
      EveryFactHasJob(q);
      var due := set j | j in jobs && DueBy(State(), j, now);
      if due == {} {
        assert forall j | j in jobs && DueBy(q, j, now) :: j in due;
        return None;
      }
      ghost var first := Soonest(q, due);
      var j :| j in due && forall k | k in due :: RetryTime(State(), j) <= RetryTime(State(), k);
      PicksMeaning(q, j, now);
      PickedIs(q, j, now);
      return Some(j);
    }

    /** `schedule_fee_job`. */
    method ScheduleFeeJob(id: Id, done: bool, now: nat)
      modifies this`jobs
      ensures State() == Schedule(old(State()), id, done, now)
    {
      if id !in jobs {
        jobs := jobs[id := if done then Job(1, Done) else Job(1, Pending(now + HOUR))];
      } else {
        var attempts := jobs[id].attempts + 1;
        if done {
          jobs := jobs[id := Job(attempts, Done)];
        } else if attempts >= MAX_ATTEMPTS {
          jobs := jobs[id := Job(attempts, Abandoned)];
        } else {
          var hours := Power2(attempts - 1);
          jobs := jobs[id := Job(attempts, Pending(now + (if hours < 24 then hours else 24) * HOUR))];
        }
      }
    }

    /** Facts another worker commits, in id order. */
    method CommitFacts(gaps: seq<nat>, ghost log: seq<Attempt>)
      requires Inv(World(State(), log))
      modifies this`facts
      ensures Inv(World(State(), log)) && facts == Grown(old(facts), gaps)
    {
      assert gaps[0..] == gaps;
      for i := 0 to |gaps|
        invariant Inv(World(State(), log)) && Grown(facts, gaps[i..]) == Grown(old(facts), gaps)
      {
        assert gaps[i..][1..] == gaps[i + 1..];
        var id := Largest(facts) + 1 + gaps[i];
        LargestIsLast(facts);
        StepKeepsInv(World(State(), log), Commit(id));
        facts := facts + [id];
      }
    }

    /** One round of the loop. */
    method Work(round: Round, ghost w: World) returns (attempted: bool, crashed: bool, ghost v: World)
      requires Inv(w) && w.queue == State()
      modifies this
      ensures Inv(v) && v.queue == State() && RoundGoes(w, round, v)
      ensures |v.log| == |w.log| + if attempted then 1 else 0
      ensures crashed ==> round.result.Crash?
    {
      hide Picks, Schedule, Number, Inv, Waiting, Enabled;
      CommitFacts(round.gaps, w.log);
      v := World(State(), w.log);
      ghost var mid := v;
      InvMeansPrefix(v);
      var next := NextFeeBlock(round.now);
      attempted := next.Some? && !round.result.Crash?;
      crashed := next.Some? && round.result.Crash?;
      if attempted {
        ghost var step := Try(next.value, round.now, Finishes(round));
        StepKeepsInv(v, step);
        TryApplies(v, step);
        ScheduleFeeJob(next.value, Finishes(round), round.now);
        v := Apply(v, step);
        assert Picks(mid.queue, next.value, round.now);
      }
    }

    /**
      `monitor`: every round that finds work makes exactly one attempt at it, whatever comes of it, and
      the whole trail keeps the fairness and the bound of ten attempts for each fact.
     */
    method Monitor(rounds: seq<Round>, ghost start: World) returns (attempts: nat, ghost trail: seq<World>)
      requires Inv(start) && State() == start.queue
      modifies this
      ensures trail != [] && trail[0] == start && trail[|trail| - 1].queue == State() && TrailGoes(trail, rounds)
      ensures |trail| == |rounds| + 1 || (1 < |trail| && rounds[|trail| - 2].result.Crash?)
      ensures Inv(trail[|trail| - 1])
      ensures |start.log| + attempts == |trail[|trail| - 1].log| <= MAX_ATTEMPTS * |facts|
    {
      hide RoundGoes, Inv;
      ghost var w := start;
      trail, attempts := [w], 0;
      for n := 0 to |rounds|
        invariant |trail| == n + 1 && trail[0] == start && trail[n] == w && w.queue == State()
        invariant Inv(w) && |start.log| + attempts == |w.log| && TrailGoes(trail, rounds)
      {
        var attempted, crashed;
        attempted, crashed, w := Work(rounds[n], w);
        attempts := attempts + if attempted then 1 else 0;
        trail := trail + [w];
        if crashed {
          AttemptsAreBounded(w);
          return;
        }
      }
      AttemptsAreBounded(w);
    }
  }

  // ---------------------------------------------------------------- the fee of one transaction

  /** `None` is an amount that is missing or does not parse. */
  type Amount = Option<nat>

  function Total(amounts: seq<Amount>): nat {
    if amounts == [] then 0 else Total(amounts[..|amounts| - 1]) + amounts[|amounts| - 1].Or(0)
  }

  predicate AllKnown(amounts: seq<Amount>) {
    forall a | a in amounts :: a.Some?
  }

  /** The total of one amount is that amount, and totals add up. */
  lemma {:induction false} TotalAdds(a: seq<Amount>, b: seq<Amount>)
    ensures Total(a + b) == Total(a) + Total(b)
    ensures Total([]) == 0 && forall n: nat :: Total([Some(n)]) == n
  {
    forall n: nat ensures Total([Some(n)]) == n {
      assert [Some(n)][..0] == [];
    }
    if b == [] {
      assert a + b == a;
    } else {
      assert (a + b)[..|a + b| - 1] == a + b[..|b| - 1];
      TotalAdds(a, b[..|b| - 1]);
    }
  }

  lemma {:induction false} PartialTotals(amounts: seq<Amount>, k: nat)
    requires k <= |amounts|
    ensures Total(amounts[..k]) <= Total(amounts)
    decreases |amounts|
  {
    if k == |amounts| {
      assert amounts[..k] == amounts;
    } else {
      assert amounts[..|amounts| - 1][..k] == amounts[..k];
      PartialTotals(amounts[..|amounts| - 1], k);
    }
  }

  /** A checked sum, added up amount by amount. */
  method CheckedTotal(amounts: seq<Amount>) returns (total: Option<nat>)
    ensures total == if AllKnown(amounts) && Total(amounts) <= U64_MAX then Some(Total(amounts)) else None
  {
    var sum: nat := 0;
    for i := 0 to |amounts|
      invariant AllKnown(amounts[..i]) && sum == Total(amounts[..i]) <= U64_MAX
    {
      assert amounts[..i + 1][..i] == amounts[..i];
      assert amounts[i] in amounts;
      PartialTotals(amounts, i + 1);
      if amounts[i].None? || sum + amounts[i].value > U64_MAX {
        return None;
      }
      sum := sum + amounts[i].value;
    }
    assert amounts[..|amounts|] == amounts;
    return Some(sum);
  }

  /** `transaction_fee`: known exactly when every amount is, nothing overflows and the fee is not negative. */
  method TransactionFee(inputs: Option<seq<Amount>>, outputs: Option<seq<Amount>>) returns (fee: Option<nat>)
    ensures fee.Some? <==>
      && inputs.Some? && inputs.value != [] && outputs.Some? && AllKnown(inputs.value) && AllKnown(outputs.value)
      && Total(outputs.value) <= Total(inputs.value) <= U64_MAX
    ensures fee.Some? ==> fee.value + Total(outputs.value) == Total(inputs.value)
  {
    if inputs.None? || inputs.value == [] {
      return None;
    }
    var input := CheckedTotal(inputs.value);
    if input.None? || outputs.None? {
      return None;
    }
    var output := CheckedTotal(outputs.value);
    if output.None? || output.value > input.value {
      return None;
    }
    return Some(input.value - output.value);
  }
}
