/**
  The stall watchdog of a live event stream: two polled tip moves without a live event between them
  (one, at the very start) set a deadline, and only a live event takes it away again.
 */
module Watchdog {
  import opened Wrappers

  /** A polled tip move or a durably published live event, at its time. */
  datatype Event = Move(at: nat, tip: nat) | Live(at: nat)

  datatype State = State(live: nat, checked: nat, stalledTip: Option<nat>, deadline: Option<nat>)

  function Saturated(n: nat): nat {
    if n > U64_MAX then U64_MAX else n
  }

  function Step(s: State, e: Event, timeout: nat): State {
    match e
    case Live(_) => State(Saturated(s.live + 1), s.checked, None, None)
    case Move(at, tip) =>
      if s.live == s.checked then
        State(s.live, s.live, Some(tip), if s.deadline.Some? then s.deadline else Some(at + timeout))
      else State(s.live, s.live, None, None)
  }

  function After(trace: seq<Event>, timeout: nat): State {
    if trace == [] then State(0, 0, None, None)
    else Step(After(trace[..|trace| - 1], timeout), trace[|trace| - 1], timeout)
  }

  // ---------------------------------------------------------------- what the trace says

  function Lives(trace: seq<Event>): nat {
    if trace == [] then 0
    else Lives(trace[..|trace| - 1]) + if trace[|trace| - 1].Live? then 1 else 0
  }

  /** Live events before the last tip move. */
  function LivesAtMove(trace: seq<Event>): nat {
    if trace == [] then 0
    else if trace[|trace| - 1].Move? then Lives(trace)
    else LivesAtMove(trace[..|trace| - 1])
  }

  /** The trace up to its last live event. */
  function Active(trace: seq<Event>): seq<Event> {
    if trace == [] || trace[|trace| - 1].Live? then trace else Active(trace[..|trace| - 1])
  }

  /** The tip moves since the last live event. */
  function Quiet(trace: seq<Event>): seq<Event> {
    if trace == [] || trace[|trace| - 1].Live? then [] else Quiet(trace[..|trace| - 1]) + [trace[|trace| - 1]]
  }

  /** The first move after live activity only takes note of it. */
  function Grace(trace: seq<Event>): nat {
    if Saturated(Lives(Active(trace))) == Saturated(LivesAtMove(Active(trace))) then 0 else 1
  }

  lemma {:induction false} SplitAtLastLive(trace: seq<Event>)
    ensures trace == Active(trace) + Quiet(trace)
    ensures forall k | 0 <= k < |Quiet(trace)| :: Quiet(trace)[k].Move?
    ensures Active(trace) != [] ==> Active(trace)[|Active(trace)| - 1].Live?
  {
    if trace != [] && trace[|trace| - 1].Move? {
      SplitAtLastLive(trace[..|trace| - 1]);
    }
  }

  lemma {:induction false} QuietCounts(trace: seq<Event>)
    ensures Lives(trace) == Lives(Active(trace)) && LivesAtMove(trace) <= Lives(trace)
    ensures Quiet(trace) != [] ==> LivesAtMove(trace) == Lives(trace)
  {
    if trace != [] {
      QuietCounts(trace[..|trace| - 1]);
    }
  }

  /**
    The watchdog's whole state, for any trace: the deadline belongs to the first silent move past the
    grace, the reported tip to the last one, and neither is set without the other.
   */
  lemma {:induction false} StateIsExact(trace: seq<Event>, timeout: nat)
    ensures var s, q, g := After(trace, timeout), Quiet(trace), Grace(trace);
      && s.live == Saturated(Lives(trace)) && s.checked == Saturated(LivesAtMove(trace))
      && s.deadline == (if |q| > g then Some(q[g].at + timeout) else None)
      && s.stalledTip == (if |q| > g then Some(q[|q| - 1].tip) else None)
  {
    if trace != [] {
      var init := trace[..|trace| - 1];
      StateIsExact(init, timeout);
      QuietCounts(init);
    }
  }

  // ---------------------------------------------------------------- when it fires

  predicate Fires(trace: seq<Event>, timeout: nat, now: nat) {
    After(trace, timeout).deadline.Some? && now >= After(trace, timeout).deadline.value
  }

  ghost predicate Ordered(trace: seq<Event>) {
    forall i, j | 0 <= i < j < |trace| :: trace[i].at <= trace[j].at
  }

  /** No live event since the tip move before `a`, or since the start of the stream if there is none. */
  ghost predicate Silent(trace: seq<Event>, a: nat) {
    && a < |trace| && trace[a].Move?
    && (|| (forall k | 0 <= k < |trace| :: trace[k].Move?)
        || exists p :: 0 <= p < a && trace[p].Move? && forall k | p <= k < |trace| :: trace[k].Move?)
  }

  /** The counter had already saturated at the last move before the latest live event. */
  predicate Worn(trace: seq<Event>) {
    Active(trace) != [] && LivesAtMove(Active(trace)) >= U64_MAX
  }

  lemma GraceMeaning(trace: seq<Event>)
    ensures Grace(trace) == 1 <==> Active(trace) != [] && !Worn(trace)
  {
    SplitAtLastLive(trace);
    var active := Active(trace);
    if active != [] {
      QuietCounts(active[..|active| - 1]);
    }
  }

  /** The trace ends in the quiet moves, and a live event stands before them if anything does. */
  lemma EndsQuiet(trace: seq<Event>)
    ensures |trace| == |Active(trace)| + |Quiet(trace)|
    ensures forall k | |Active(trace)| <= k < |trace| :: trace[k] == Quiet(trace)[k - |Active(trace)|] && trace[k].Move?
    ensures Active(trace) != [] ==> trace[|Active(trace)| - 1].Live?
  {
    SplitAtLastLive(trace);
    var a, q := Active(trace), Quiet(trace);
    hide Active, Quiet;
    assert trace == a + q;
    forall k | |a| <= k < |trace| ensures trace[k] == q[k - |a|] && trace[k].Move? {
      assert q[k - |a|].Move?;
    }
  }

  lemma ArmingMoveIsSilent(trace: seq<Event>)
    requires !Worn(trace) && |Quiet(trace)| > Grace(trace)
    ensures var a := |Active(trace)| + Grace(trace);
      a < |trace| && trace[a] == Quiet(trace)[Grace(trace)] && Silent(trace, a)
  {
    GraceMeaning(trace);
    EndsQuiet(trace);
    GraceIsBit(trace);
    hide Active, Quiet, Grace, Worn;
    var base := |Active(trace)|;
    assert trace[base].Move?;
  }

  lemma GraceIsBit(trace: seq<Event>)
    ensures Grace(trace) <= 1
  {
  }

  lemma SilentMoveIsNotEarlier(trace: seq<Event>, a: nat)
    requires !Worn(trace) && Silent(trace, a)
    ensures |Quiet(trace)| > Grace(trace) && a >= |Active(trace)| + Grace(trace)
  {
    GraceMeaning(trace);
    EndsQuiet(trace);
    GraceIsBit(trace);
    hide Active, Quiet, Grace, Worn;
    var base := |Active(trace)|;
    assert base > 0 ==> trace[base - 1].Live?;
  }

  /** Some silent move lies a full timeout back. */
  ghost predicate DueAt(trace: seq<Event>, timeout: nat, now: nat) {
    exists a: nat :: a < |trace| && Silent(trace, a) && now >= trace[a].at + timeout
  }

  /**
    The watchdog fails the stream at `now` exactly when some tip move lies a full timeout back and no
    live event arrived since the move before it.
   */
  lemma FiresIff(trace: seq<Event>, timeout: nat, now: nat)
    requires Ordered(trace) && !Worn(trace)
    ensures Fires(trace, timeout, now) <==> DueAt(trace, timeout, now)
  {
    hide After, Quiet, Active, Grace, Worn, Silent;
    StateIsExact(trace, timeout);
    if |Quiet(trace)| > Grace(trace) {
      ArmingMoveIsSilent(trace);
    }
    forall a: nat | a < |trace| && Silent(trace, a)
      ensures |Quiet(trace)| > Grace(trace) && trace[a].at >= Quiet(trace)[Grace(trace)].at
    {
      SilentMoveIsNotEarlier(trace, a);
      ArmingMoveIsSilent(trace);
      var first := |Active(trace)| + Grace(trace);
      assert first < a ==> trace[first].at <= trace[a].at;
    }
  }

  /** A later tip move never postpones an armed deadline. */
  lemma MovesNeverPostpone(trace: seq<Event>, move: Event, timeout: nat)
    requires move.Move? && After(trace, timeout).deadline.Some?
    ensures After(trace + [move], timeout).deadline == After(trace, timeout).deadline
    ensures After(trace + [move], timeout).stalledTip == Some(move.tip)
  {
    assert (trace + [move])[..|trace|] == trace;
    StateIsExact(trace, timeout);
    StateIsExact(trace + [move], timeout);
    QuietCounts(trace);
  }

  // ---------------------------------------------------------------- the counter saturates

  function Flood(n: nat): seq<Event> {
    seq(n, i requires 0 <= i < n => Live(0))
  }

  lemma {:induction false} FloodCounts(n: nat)
    ensures Lives(Flood(n)) == n
  {
    if n > 0 {
      assert Flood(n)[..n - 1] == Flood(n - 1);
      FloodCounts(n - 1);
    }
  }

  /** At every moment the watchdog fires exactly when a silent move lies a full timeout back. */
  ghost predicate AlarmIsExact(trace: seq<Event>, timeout: nat) {
    forall now: nat :: Fires(trace, timeout, now) <==> DueAt(trace, timeout, now)
  }

  /** What a worn counter gets wrong: it counts from the first quiet move, but only the second is silent. */
  lemma WornCounterSkipsGrace(trace: seq<Event>, a: nat)
    requires Worn(trace)
    ensures Grace(trace) == 0
    ensures a < |trace| && Silent(trace, a) ==> |Quiet(trace)| > 1 && a >= |Active(trace)| + 1
    ensures |Quiet(trace)| > 1 ==>
      && |Active(trace)| + 1 < |trace| && Silent(trace, |Active(trace)| + 1)
      && trace[|Active(trace)| + 1] == Quiet(trace)[1]
  {
    GraceMeaning(trace);
    EndsQuiet(trace);
    GraceIsBit(trace);
    WornIsActive(trace);
    hide Active, Quiet, Grace, Worn;
    var base := |Active(trace)|;
    assert trace[base - 1].Live?;
    if |Quiet(trace)| > 1 {
      assert trace[base].Move?;
    }
  }

  lemma WornIsActive(trace: seq<Event>)
    requires Worn(trace)
    ensures Active(trace) != []
  {
  }

  lemma WornDueIff(trace: seq<Event>, timeout: nat, now: nat)
    requires Ordered(trace) && Worn(trace)
    ensures DueAt(trace, timeout, now) <==> |Quiet(trace)| > 1 && now >= Quiet(trace)[1].at + timeout
  {
    hide Quiet, Active, Grace, Worn, Silent;
    WornCounterSkipsGrace(trace, 0);
    forall a: nat | a < |trace| && Silent(trace, a)
      ensures |Quiet(trace)| > 1 && trace[a].at >= Quiet(trace)[1].at
    {
      WornCounterSkipsGrace(trace, a);
      var first := |Active(trace)| + 1;
      assert first < a ==> trace[first].at <= trace[a].at;
    }
  }

  /**
    The alarm is exact except for a worn counter after a live event: there it is exact only while no
    move has come, or when the first two came at one moment.
   */
  lemma AlarmIsExactIff(trace: seq<Event>, timeout: nat)
    requires Ordered(trace)
    ensures AlarmIsExact(trace, timeout) <==>
      || !Worn(trace) || Quiet(trace) == []
      || (|Quiet(trace)| > 1 && Quiet(trace)[0].at == Quiet(trace)[1].at)
  {
    hide After, Quiet, Active, Grace, Silent, Worn;
    if !Worn(trace) {
      forall now: nat ensures Fires(trace, timeout, now) <==> DueAt(trace, timeout, now) {
        FiresIff(trace, timeout, now);
      }
    } else {
      StateIsExact(trace, timeout);
      WornCounterSkipsGrace(trace, 0);
      forall now: nat ensures DueAt(trace, timeout, now) <==> |Quiet(trace)| > 1 && now >= Quiet(trace)[1].at + timeout {
        WornDueIff(trace, timeout, now);
      }
      if |Quiet(trace)| > 0 {
        var armed: nat := Quiet(trace)[0].at + timeout;
        assert Fires(trace, timeout, armed);
        QuietIsOrdered(trace);
      }
    }
  }

  lemma QuietIsOrdered(trace: seq<Event>)
    requires Ordered(trace)
    ensures |Quiet(trace)| > 1 ==> Quiet(trace)[0].at <= Quiet(trace)[1].at
  {
    EndsQuiet(trace);
    hide Active, Quiet;
    if |Quiet(trace)| > 1 {
      var base := |Active(trace)|;
      assert trace[base] == Quiet(trace)[0] && trace[base + 1] == Quiet(trace)[1];
    }
  }

  lemma CountersWear()
    ensures exists trace: seq<Event> :: Ordered(trace) && Worn(trace) && |Quiet(trace)| == 1
  {
    var flood := Flood(U64_MAX);
    FloodCounts(U64_MAX);
    var first := flood + [Move(0, 1)];
    var second := first + [Live(0)];
    var trace := second + [Move(0, 2)];
    assert first[..|first| - 1] == flood && second[..|second| - 1] == first && trace[..|trace| - 1] == second;
    assert LivesAtMove(first) == Lives(first);
    assert LivesAtMove(second) == LivesAtMove(first);
    assert Active(trace) == Active(second) == second;
    assert Quiet(trace) == Quiet(second) + [Move(0, 2)];
    assert Ordered(trace);
  }

  // ---------------------------------------------------------------- the loop

  /** What one round of the loop sees: the outcome of the biased wait, at a time. */
  datatype Poll =
    | Shutdown
    | TipChanged(at: nat, tip: nat)
    | TipClosed
    | Clock(at: nat)
    | Response(at: nat, published: bool)
    | StreamEnded

  datatype Verdict = Stopped | Stalled(tip: nat) | Broken | Running

  function Observed(poll: Poll): seq<Event> {
    match poll
    case TipChanged(at, tip) => [Move(at, tip)]
    case Response(at, true) => [Live(at)]
    case _ => []
  }

  function Trace(polls: seq<Poll>): seq<Event> {
    if polls == [] then [] else Trace(polls[..|polls| - 1]) + Observed(polls[|polls| - 1])
  }

  lemma PolledNever(polls: seq<Poll>, timeout: nat)
    ensures After(Trace(polls[..0]), timeout) == State(0, 0, None, None)
  {
  }

  lemma PolledOnce(polls: seq<Poll>, n: nat, timeout: nat)
    requires n < |polls|
    ensures var s, seen := After(Trace(polls[..n]), timeout), Observed(polls[n]);
      && After(Trace(polls[..n + 1]), timeout) == (if seen == [] then s else Step(s, seen[0], timeout))
      && (s.deadline.Some? <==> s.stalledTip.Some?)
  {
    var trace := Trace(polls[..n]);
    assert polls[..n + 1][..n] == polls[..n];
    assert trace + [] == trace;
    if Observed(polls[n]) != [] {
      assert (trace + Observed(polls[n]))[..|trace|] == trace;
    }
    StateIsExact(trace, timeout);
  }

  /** A poll that ends the loop by itself. */
  predicate Ends(poll: Poll) {
    poll.Shutdown? || poll.TipClosed? || poll.StreamEnded? || (poll.Response? && !poll.published)
  }

  /** A clock at which the trace so far says that the stream has stalled. */
  predicate StallsAt(polls: seq<Poll>, timeout: nat, i: nat)
    requires i < |polls|
  {
    polls[i].Clock? && Fires(Trace(polls[..i]), timeout, polls[i].at)
  }

  /**
    `forward_stream` over any sequence of polls: it ends at the first poll that ends it or finds it
    stalled, and the verdict says which.
   */
  method Forward(polls: seq<Poll>, timeout: nat) returns (verdict: Verdict, seen: nat)
    ensures seen <= |polls| && (verdict.Running? <==> seen == |polls|)
    ensures forall i | 0 <= i < seen :: !Ends(polls[i]) && !StallsAt(polls, timeout, i)
    ensures verdict.Stopped? <==> seen < |polls| && polls[seen].Shutdown?
    ensures verdict.Broken? <==> seen < |polls| && Ends(polls[seen]) && !polls[seen].Shutdown?
    ensures verdict.Stalled? <==> seen < |polls| && StallsAt(polls, timeout, seen)
    ensures verdict.Stalled? ==> Some(verdict.tip) == After(Trace(polls[..seen]), timeout).stalledTip
  {
    hide After, Trace;
    PolledNever(polls, timeout);
    var live: nat, checked: nat := 0, 0;
    var stalledTip: Option<nat>, deadline: Option<nat> := None, None;
    seen := 0;
    while seen < |polls|
      invariant seen <= |polls|
      invariant State(live, checked, stalledTip, deadline) == After(Trace(polls[..seen]), timeout)
      invariant forall i | 0 <= i < seen :: !Ends(polls[i]) && !StallsAt(polls, timeout, i)
    {
      PolledOnce(polls, seen, timeout);
      match polls[seen] {
        case Shutdown => return Stopped, seen;
        case TipClosed => return Broken, seen;
        case StreamEnded => return Broken, seen;
        case Clock(at) =>
          if deadline.Some? && at >= deadline.value {
            return Stalled(stalledTip.value), seen;
          }
        case Response(at, published) =>
          if !published {
            return Broken, seen;
          }
          live := Saturated(live + 1);
          stalledTip, deadline := None, None;
        case TipChanged(at, tip) =>
          if live == checked {
            stalledTip := Some(tip);
            if deadline.None? {
              deadline := Some(at + timeout);
            }
          } else {
            stalledTip, deadline := None, None;
          }
          checked := live;
      }
      seen := seen + 1;
    }
    return Running, seen;
  }
}
