/**
  The block-history worker: which slots wait for a pass, which wait for a retry, and what every
  request and every consumed tip move eventually led to.
 */
module Scheduler {
  import opened Wrappers

  type Slot = nat
  type Id = string

  datatype Instance = Instance(slot: Slot, id: Id, activation: nat)

  datatype Tip = Tip(hash: nat, height: nat)

  datatype Request = Request(instance: Instance, target: Tip)

  // ---------------------------------------------------------------- the environment

  /** How one history pass ends; `Reached` stands for both kinds of completed target. */
  datatype Outcome = Interrupted | Superseded | Quarantined | Deferred(target: Tip) | Reached(target: Tip) | Broken

  datatype TipRead = Current(tip: Tip) | Unreachable | Fatal

  /** `None` is a store call that failed; `Some(None)` a slot without a current instance. */
  type Stored = Option<Option<Id>>

  datatype Pass = Pass(outcome: Outcome, healthStored: bool, current: Stored, tip: TipRead)

  datatype Serving = Serving(current: Stored, passes: seq<Pass>)

  datatype Wake =
    | Shutdown
    | Incoming(request: Request)
    | RequestsClosed
    | Due(index: nat)
    | TipMoved(tip: Tip)
    | TipClosed

  /** One turn of the worker: what wakes it if nothing is pending, and how the service then goes. */
  datatype Moment = Moment(wake: Wake, serving: Serving)

  /** `Drained` is the normal end; `Paused` stands between two turns; the others drop everything. */
  datatype Exit = Drained | Paused | ShutDown | Failed | Killed

  // ---------------------------------------------------------------- the ledger

  datatype Settlement = Covered(reached: Tip, read: Tip) | Quarantine | Inactive

  datatype Entry =
    | Asked(request: Request)
    | TipSeen(tip: Tip, instances: set<Instance>)
    | Settled(instance: Instance, how: Settlement)

  predicate Raises(e: Entry, i: Instance) {
    match e
    case Asked(request) => request.instance == i
    case TipSeen(_, instances) => i in instances
    case Settled(_, _) => false
  }

  predicate Settles(e: Entry, i: Instance) {
    e.Settled? && e.instance == i
  }

  ghost predicate SettledAfter(log: seq<Entry>, k: nat, i: Instance) {
    exists j :: k < j < |log| && Settles(log[j], i)
  }

  predicate Waits(pending: map<Slot, Request>, retries: seq<Request>, i: Instance) {
    || (i.slot in pending && pending[i.slot].instance == i)
    || exists r | r in retries :: r.instance == i
  }

  /** Every request and tip move of an instance was settled later or still waits, but for the one in service. */
  ghost predicate Accounted(log: seq<Entry>, pending: map<Slot, Request>, retries: seq<Request>, serving: Option<Instance>) {
    forall k: nat, i | k < |log| && Raises(log[k], i) && serving != Some(i) ::
      SettledAfter(log, k, i) || Waits(pending, retries, i)
  }

  /** A covered target is the tip that a later read returned. */
  ghost predicate Truthful(log: seq<Entry>) {
    forall j | 0 <= j < |log| && log[j].Settled? && log[j].how.Covered? :: log[j].how.reached.hash == log[j].how.read.hash
  }

  lemma EntryKeepsAccounts(log: seq<Entry>, e: Entry, pending: map<Slot, Request>, retries: seq<Request>,
                           serving: Option<Instance>, after: Option<Instance>)
    requires Accounted(log, pending, retries, serving)
    requires serving == after || (serving.Some? && after.None? && Settles(e, serving.value))
    requires forall i | Raises(e, i) && after != Some(i) :: Waits(pending, retries, i)
    ensures Accounted(log + [e], pending, retries, after)
  {
    var longer := log + [e];
    forall k: nat, i | k < |longer| && Raises(longer[k], i) && after != Some(i)
      ensures SettledAfter(longer, k, i) || Waits(pending, retries, i)
    {
      if k < |log| {
        if serving == Some(i) {
          assert Settles(longer[|log|], i);
        } else if SettledAfter(log, k, i) {
          var j :| k < j < |log| && Settles(log[j], i);
          assert Settles(longer[j], i);
        }
      }
    }
  }

  lemma WaitingKeepsAccounts(log: seq<Entry>, pending: map<Slot, Request>, retries: seq<Request>, serving: Option<Instance>,
                             pending2: map<Slot, Request>, retries2: seq<Request>, serving2: Option<Instance>)
    requires Accounted(log, pending, retries, serving)
    requires forall i | Waits(pending, retries, i) || serving == Some(i) :: Waits(pending2, retries2, i) || serving2 == Some(i)
    ensures Accounted(log, pending2, retries2, serving2)
  {
  }

  // ---------------------------------------------------------------- the retry set

  predicate DistinctIds(retries: seq<Request>) {
    forall a, b | 0 <= a < b < |retries| :: retries[a].instance.id != retries[b].instance.id
  }

  /** `deferred` is exactly the ids in `retries`, each once. */
  predicate DeferredExact(deferred: set<Id>, retries: seq<Request>) {
    DistinctIds(retries) && deferred == set r | r in retries :: r.instance.id
  }

  lemma RemoveRetry(deferred: set<Id>, retries: seq<Request>, k: nat)
    requires DeferredExact(deferred, retries) && k < |retries|
    ensures DeferredExact(deferred - {retries[k].instance.id}, retries[..k] + retries[k + 1..])
  {
    var rest := retries[..k] + retries[k + 1..];
    forall a | 0 <= a < |rest| ensures rest[a] == retries[if a < k then a else a + 1] {
    }
    forall id ensures id in deferred - {retries[k].instance.id} <==> exists r | r in rest :: r.instance.id == id {
      if id in deferred && id != retries[k].instance.id {
        var a :| 0 <= a < |retries| && retries[a].instance.id == id;
        assert retries[a] == rest[if a < k then a else a - 1];
      }
      if r :| r in rest && r.instance.id == id {
        var a :| 0 <= a < |rest| && rest[a] == r;
        assert retries[if a < k then a else a + 1] == r;
      }
    }
  }

  /** `pop_first` takes the smallest slot. */
  ghost function LeastSlot(keys: set<Slot>): (least: Slot)
    requires keys != {}
    ensures least in keys && forall t | t in keys :: least <= t
  {
    var some :| some in keys;
    if keys == {some} then some
    else
      var rest := LeastSlot(keys - {some});
      assert keys == {some} + (keys - {some});
      if some < rest then some else rest
  }

  // ---------------------------------------------------------------- how a service ends

  datatype End =
    | Discards
    | Leaves
    | Closes(how: Settlement)
    | Retries(target: Tip)
    | Continues(tip: Tip)
    | Aborts(exit: Exit)

  function EndOfPass(instance: Instance, pass: Pass): (end: End)
    ensures end.Aborts? ==> end.exit in {ShutDown, Failed, Killed}
    ensures end.Closes? && end.how.Covered? ==> end.how.reached.hash == end.how.read.hash
    ensures end.Closes? ==> !end.how.Inactive?
  {
    match pass.outcome
    case Broken => Aborts(Failed)
    case Interrupted => Aborts(ShutDown)
    case Superseded => Leaves
    case Quarantined => if pass.healthStored then Closes(Quarantine) else Aborts(Failed)
    case Deferred(left) => Retries(left)
    case Reached(reached) =>
      if pass.current.None? then Aborts(Failed)
      else if pass.current.value != Some(instance.id) then Leaves
      else
        match pass.tip
        case Fatal => Aborts(Failed)
        case Unreachable => Retries(reached)
        case Current(tip) => if tip.hash == reached.hash then Closes(Covered(reached, tip)) else Continues(tip)
  }

  /** The first pass that does not ask for another one decides. */
  function EndOfPasses(instance: Instance, passes: seq<Pass>): (end: End)
    ensures end.Aborts? ==> end.exit in {ShutDown, Failed, Killed}
    ensures end.Closes? && end.how.Covered? ==> end.how.reached.hash == end.how.read.hash
    ensures end.Closes? ==> !end.how.Inactive?
    ensures !end.Continues?
  {
    if passes == [] then Aborts(Killed)
    else if EndOfPass(instance, passes[0]).Continues? then EndOfPasses(instance, passes[1..])
    else EndOfPass(instance, passes[0])
  }

  function EndOfService(request: Request, serving: Serving): (end: End)
    ensures end.Aborts? ==> end.exit in {ShutDown, Failed, Killed}
    ensures end.Closes? && end.how.Covered? ==> end.how.reached.hash == end.how.read.hash
    ensures end.Closes? ==> !end.how.Inactive?
    ensures !end.Continues?
  {
    if serving.current.None? then Aborts(Failed)
    else if serving.current.value != Some(request.instance.id) then Discards
    else EndOfPasses(request.instance, serving.passes)
  }

  lemma {:induction false} PassesUpTo(instance: Instance, passes: seq<Pass>, n: nat)
    requires n <= |passes| && forall k | 0 <= k < n :: EndOfPass(instance, passes[k]).Continues?
    ensures EndOfPasses(instance, passes) == EndOfPasses(instance, passes[n..])
    decreases n
  {
    if n > 0 {
      PassesUpTo(instance, passes[1..], n - 1);
      assert passes[1..][n - 1..] == passes[n..];
    } else {
      assert passes[0..] == passes;
    }
  }

  method SmallestSlot(keys: set<Slot>) returns (s: Slot)
    requires keys != {}
    ensures s in keys && forall t | t in keys :: s <= t
  {
    ghost var least := LeastSlot(keys);
    s :| s in keys && forall t | t in keys :: s <= t;
  }

  // ---------------------------------------------------------------- the worker as transitions

  /** The worker's variables and the ledger. */
  datatype Board = Board(
    requestsOpen: bool,
    tipOpen: bool,
    activations: map<Slot, Instance>,
    pending: map<Slot, Request>,
    deferred: set<Id>,
    retries: seq<Request>,
    log: seq<Entry>)

  const START := Board(true, true, map[], map[], {}, [], [])

  function Logged(instance: Instance, end: End): seq<Entry> {
    match end
    case Discards => [Settled(instance, Inactive)]
    case Leaves => [Settled(instance, Inactive)]
    case Closes(how) => [Settled(instance, how)]
    case _ => []
  }

  /** A service of `instance` that ends so: what leaves the activations, is settled, or waits for a retry. */
  function Finished(s: Board, instance: Instance, end: End): Board {
    var slot := instance.slot;
    var gone := end.Leaves? || (end.Discards? && slot in s.activations && s.activations[slot] == instance);
    s.(activations := if gone then s.activations - {slot} else s.activations,
       log := s.log + Logged(instance, end),
       retries := s.retries + if end.Retries? && instance.id !in s.deferred then [Request(instance, end.target)] else [],
       deferred := s.deferred + if end.Retries? then {instance.id} else {})
  }

  function Activated(s: Board, request: Request, serving: Serving): Board {
    if serving.current == Some(Some(request.instance.id))
    then s.(activations := s.activations[request.instance.slot := request.instance]) else s
  }

  function ExitOf(end: End): Option<Exit> {
    if end.Aborts? then Some(end.exit) else None
  }

  function Served(s: Board, request: Request, serving: Serving): (Board, Option<Exit>) {
    var end := EndOfService(request, serving);
    (Finished(Activated(s, request, serving), request.instance, end), ExitOf(end))
  }

  function Requests(activations: map<Slot, Instance>, slots: set<Slot>, tip: Tip): map<Slot, Request> {
    map slot | slot in activations && slot in slots :: Request(activations[slot], tip)
  }

  /** `queue_tip_reconciliations`. */
  function Queued(s: Board, tip: Tip): Board {
    s.(pending := s.pending + Requests(s.activations, s.activations.Keys, tip),
       log := s.log + [TipSeen(tip, s.activations.Values)])
  }

  function WithoutRetry(s: Board, k: nat): Board
    requires k < |s.retries|
  {
    s.(retries := s.retries[..k] + s.retries[k + 1..], deferred := s.deferred - {s.retries[k].instance.id})
  }

  /** One turn: a pending request first, else whatever wakes the worker. */
  ghost function AfterTurn(s: Board, m: Moment): (Board, Option<Exit>) {
    if !s.requestsOpen && s.pending == map[] && s.retries == [] then (s, Some(Drained))
    else if s.pending != map[] then
      var slot := LeastSlot(s.pending.Keys);
      Served(s.(pending := s.pending - {slot}), s.pending[slot], m.serving)
    else
      match m.wake
      case Shutdown => (s, Some(ShutDown))
      case RequestsClosed => (s.(requestsOpen := false), None)
      case TipClosed => (s.(tipOpen := false), None)
      case TipMoved(tip) => (if s.tipOpen then Queued(s, tip) else s, None)
      case Due(k) => if k < |s.retries| then Served(WithoutRetry(s, k), s.retries[k], m.serving) else (s, None)
      case Incoming(request) =>
        if s.requestsOpen then Served(s.(log := s.log + [Asked(request)]), request, m.serving) else (s, None)
  }

  ghost function Play(s: Board, script: seq<Moment>): (Board, Exit)
    decreases |script|
  {
    if script == [] then (s, Paused)
    else
      var (t, exit) := AfterTurn(s, script[0]);
      if exit.Some? then (t, exit.value) else Play(t, script[1..])
  }

  // ---------------------------------------------------------------- what every turn keeps

  /** `who` is the identity digest: which instance an id belongs to. */
  ghost predicate Known(who: Id -> Instance, i: Instance) {
    who(i.id) == i
  }

  ghost predicate Tables(who: Id -> Instance, s: Board) {
    && DeferredExact(s.deferred, s.retries)
    && (forall r | r in s.retries :: Known(who, r.instance))
    && (forall slot | slot in s.activations :: s.activations[slot].slot == slot && Known(who, s.activations[slot]))
    && (forall slot | slot in s.pending :: slot in s.activations && s.pending[slot].instance == s.activations[slot])
    && Truthful(s.log)
  }

  ghost predicate Valid(who: Id -> Instance, s: Board, serving: Option<Instance>) {
    Tables(who, s) && Accounted(s.log, s.pending, s.retries, serving)
  }

  lemma AddRetry(deferred: set<Id>, retries: seq<Request>, request: Request)
    requires DeferredExact(deferred, retries) && request.instance.id !in deferred
    ensures DeferredExact(deferred + {request.instance.id}, retries + [request])
  {
    var more := retries + [request];
    forall id ensures id in deferred + {request.instance.id} <==> exists r | r in more :: r.instance.id == id {
      assert request in more;
      if id in deferred {
        var r :| r in retries && r.instance.id == id;
        assert r in more;
      }
    }
  }

  /** A scheduled retry takes over the work of the instance in service. */
  lemma RetryKeepsValid(who: Id -> Instance, s: Board, instance: Instance, target: Tip)
    requires Valid(who, s, Some(instance)) && Known(who, instance)
    ensures Valid(who, Finished(s, instance, Retries(target)), None)
  {
    var f := Finished(s, instance, Retries(target));
    assert f.log == s.log;
    if instance.id !in s.deferred {
      AddRetry(s.deferred, s.retries, Request(instance, target));
      assert Request(instance, target) in f.retries;
    } else {
      assert f.retries == s.retries && f.deferred == s.deferred;
    }
    WaitingKeepsAccounts(s.log, s.pending, s.retries, Some(instance), f.pending, f.retries, None);
  }

  lemma SettlingKeepsValid(who: Id -> Instance, s: Board, instance: Instance, end: End)
    requires Valid(who, s, Some(instance)) && instance.slot !in s.pending
    requires end.Discards? || end.Leaves? || end.Closes?
    requires end.Closes? && end.how.Covered? ==> end.how.reached.hash == end.how.read.hash
    ensures Valid(who, Finished(s, instance, end), None)
  {
    var f, e := Finished(s, instance, end), Logged(instance, end)[0];
    EntryKeepsAccounts(s.log, e, s.pending, s.retries, Some(instance), None);
    assert f.retries == s.retries && f.deferred == s.deferred && f.log == s.log + [e];
  }

  lemma ServiceKeepsValid(who: Id -> Instance, s: Board, request: Request, serving: Serving)
    requires Valid(who, s, Some(request.instance)) && Known(who, request.instance)
    requires request.instance.slot !in s.pending && !EndOfService(request, serving).Aborts?
    ensures Valid(who, Served(s, request, serving).0, None)
  {
    var end, a := EndOfService(request, serving), Activated(s, request, serving);
    if end.Retries? {
      RetryKeepsValid(who, a, request.instance, end.target);
    } else {
      SettlingKeepsValid(who, a, request.instance, end);
    }
  }

  lemma QueueKeepsValid(who: Id -> Instance, s: Board, tip: Tip)
    requires Valid(who, s, None) && s.pending == map[]
    ensures Valid(who, Queued(s, tip), None)
  {
    var q, e := Queued(s, tip), TipSeen(tip, s.activations.Values);
    WaitingKeepsAccounts(s.log, s.pending, s.retries, None, q.pending, q.retries, None);
    EntryKeepsAccounts(s.log, e, q.pending, q.retries, None, None);
  }

  lemma PopKeepsValid(who: Id -> Instance, s: Board, slot: Slot)
    requires Valid(who, s, None) && slot in s.pending
    ensures Valid(who, s.(pending := s.pending - {slot}), Some(s.pending[slot].instance))
  {
    var t := s.(pending := s.pending - {slot});
    WaitingKeepsAccounts(s.log, s.pending, s.retries, None, t.pending, t.retries, Some(s.pending[slot].instance));
  }

  lemma OthersStillWait(pending: map<Slot, Request>, retries: seq<Request>, k: nat, i: Instance)
    requires k < |retries|
    ensures Waits(pending, retries, i) ==> Waits(pending, retries[..k] + retries[k + 1..], i) || i == retries[k].instance
  {
    var rest := retries[..k] + retries[k + 1..];
    if r :| r in retries && r.instance == i {
      var a :| 0 <= a < |retries| && retries[a] == r;
      assert a != k ==> r == rest[if a < k then a else a - 1];
    }
  }

  lemma TakeKeepsValid(who: Id -> Instance, s: Board, k: nat)
    requires Valid(who, s, None) && k < |s.retries|
    ensures Valid(who, WithoutRetry(s, k), Some(s.retries[k].instance))
  {
    var t, taken := WithoutRetry(s, k), s.retries[k].instance;
    RemoveRetry(s.deferred, s.retries, k);
    forall i ensures Waits(s.pending, s.retries, i) ==> Waits(t.pending, t.retries, i) || i == taken {
      OthersStillWait(s.pending, s.retries, k, i);
    }
    hide Waits, DeferredExact, Accounted;
    WaitingKeepsAccounts(s.log, s.pending, s.retries, None, t.pending, t.retries, Some(taken));
  }

  lemma AskKeepsValid(who: Id -> Instance, s: Board, request: Request)
    requires Valid(who, s, None)
    ensures Valid(who, s.(log := s.log + [Asked(request)]), Some(request.instance))
  {
    var i := Some(request.instance);
    WaitingKeepsAccounts(s.log, s.pending, s.retries, None, s.pending, s.retries, i);
    EntryKeepsAccounts(s.log, Asked(request), s.pending, s.retries, i, i);
  }

  /** Requests carry genuine ids. */
  ghost predicate Genuine(who: Id -> Instance, m: Moment) {
    m.wake.Incoming? ==> Known(who, m.wake.request.instance)
  }

  lemma TurnKeepsValid(who: Id -> Instance, s: Board, m: Moment)
    requires Valid(who, s, None) && Genuine(who, m) && (AfterTurn(s, m).1 in {None, Some(Drained)})
    ensures Valid(who, AfterTurn(s, m).0, None)
  {
    hide Valid, Served;
    ValidRequests(who, s);
    if !s.requestsOpen && s.pending == map[] && s.retries == [] {
    } else if s.pending != map[] {
      var slot := LeastSlot(s.pending.Keys);
      PopKeepsValid(who, s, slot);
      ServedIsNeverDrained(s.(pending := s.pending - {slot}), s.pending[slot], m.serving);
      ServiceKeepsValid(who, s.(pending := s.pending - {slot}), s.pending[slot], m.serving);
    } else {
      OtherWakesKeepValid(who, s, m);
    }
  }

  lemma ServedIsNeverDrained(s: Board, request: Request, serving: Serving)
    ensures Served(s, request, serving).1 == ExitOf(EndOfService(request, serving))
    ensures Served(s, request, serving).1 != Some(Drained) && Served(s, request, serving).1 != Some(Paused)
  {
  }

  lemma ValidRequests(who: Id -> Instance, s: Board)
    requires Valid(who, s, None)
    ensures forall slot | slot in s.pending :: s.pending[slot].instance.slot == slot && Known(who, s.pending[slot].instance)
    ensures forall r | r in s.retries :: Known(who, r.instance)
  {
  }

  lemma OtherWakesKeepValid(who: Id -> Instance, s: Board, m: Moment)
    requires Valid(who, s, None) && Genuine(who, m) && (AfterTurn(s, m).1 in {None, Some(Drained)})
    requires s.pending == map[] && !(!s.requestsOpen && s.retries == [])
    ensures Valid(who, AfterTurn(s, m).0, None)
  {
    hide Served;
    match m.wake
    case TipMoved(tip) => QueueKeepsValid(who, s, tip);
    case Due(k) =>
      if k < |s.retries| {
        TakeKeepsValid(who, s, k);
        ServedIsNeverDrained(WithoutRetry(s, k), s.retries[k], m.serving);
        assert s.retries[k] in s.retries;
        ServiceKeepsValid(who, WithoutRetry(s, k), s.retries[k], m.serving);
      }
    case Incoming(request) =>
      if s.requestsOpen {
        AskKeepsValid(who, s, request);
        ServedIsNeverDrained(s.(log := s.log + [Asked(request)]), request, m.serving);
        ServiceKeepsValid(who, s.(log := s.log + [Asked(request)]), request, m.serving);
      }
    case _ =>
  }

  // ---------------------------------------------------------------- no work is lost, over every run

  /** The turn takes a request of `i` from the channel, or a tip move while `i` is activated. */
  predicate Consumes(s: Board, m: Moment, i: Instance) {
    && s.pending == map[] && (s.requestsOpen || s.retries != [])
    && ((m.wake.Incoming? && s.requestsOpen && m.wake.request.instance == i)
        || (m.wake.TipMoved? && s.tipOpen && i in s.activations.Values))
  }

  lemma TurnLogs(s: Board, m: Moment)
    ensures s.log <= AfterTurn(s, m).0.log
    ensures forall i | Consumes(s, m, i) ::
      |AfterTurn(s, m).0.log| > |s.log| && Raises(AfterTurn(s, m).0.log[|s.log|], i)
  {
  }

  lemma {:induction false} PlayKeepsValid(who: Id -> Instance, s: Board, script: seq<Moment>)
    requires Valid(who, s, None) && forall m | m in script :: Genuine(who, m)
    requires Play(s, script).1 in {Paused, Drained}
    ensures Valid(who, Play(s, script).0, None)
    decreases |script|
  {
    hide AfterTurn, Valid, Genuine;
    if script != [] {
      var (t, exit) := AfterTurn(s, script[0]);
      TurnExits(s, script[0]);
      TurnKeepsValid(who, s, script[0]);
      if exit.None? {
        PlayKeepsValid(who, t, script[1..]);
      }
    }
  }

  lemma TurnExits(s: Board, m: Moment)
    ensures AfterTurn(s, m).1 != Some(Paused)
    ensures AfterTurn(s, m).1 == Some(Drained) <==> !s.requestsOpen && s.pending == map[] && s.retries == []
    ensures AfterTurn(s, m).1 == Some(Drained) ==> AfterTurn(s, m).0 == s
  {
    hide EndOfService, Finished, Activated;
  }

  lemma {:induction false} PlayDrains(s: Board, script: seq<Moment>)
    ensures s.log <= Play(s, script).0.log
    ensures Play(s, script).1 == Drained ==> Play(s, script).0.pending == map[] && Play(s, script).0.retries == []
    decreases |script|
  {
    hide AfterTurn;
    if script != [] {
      TurnLogs(s, script[0]);
      TurnExits(s, script[0]);
      if AfterTurn(s, script[0]).1.None? {
        PlayDrains(AfterTurn(s, script[0]).0, script[1..]);
      }
    }
  }

  lemma {:induction false} PlayContinues(s: Board, script: seq<Moment>, n: nat)
    requires n <= |script| && Play(s, script[..n]).1 == Paused
    ensures Play(s, script) == Play(Play(s, script[..n]).0, script[n..])
    decreases n
  {
    hide AfterTurn;
    if n == 0 {
      assert script[0..] == script && script[..0] == [];
    } else {
      TurnExits(s, script[0]);
      assert script[..n][0] == script[0] && script[..n][1..] == script[1..][..n - 1];
      assert script[1..][n - 1..] == script[n..];
      assert AfterTurn(s, script[0]).1.None?;
      PlayContinues(AfterTurn(s, script[0]).0, script[1..], n - 1);
    }
  }

  /**
    Whatever request or tip move the worker consumed at turn `n`: by the end of the script it was settled
    later, or still waits, and if the worker ended normally it was settled.
   */
  lemma NothingConsumedIsLost(who: Id -> Instance, s: Board, script: seq<Moment>, n: nat, i: Instance)
    requires Valid(who, s, None) && forall m | m in script :: Genuine(who, m)
    requires n < |script| && Play(s, script[..n]).1 == Paused
    requires Consumes(Play(s, script[..n]).0, script[n], i)
    requires Play(s, script).1 in {Paused, Drained}
    ensures var k, end := |Play(s, script[..n]).0.log|, Play(s, script).0;
      && k < |end.log| && Raises(end.log[k], i)
      && (SettledAfter(end.log, k, i) || Waits(end.pending, end.retries, i))
      && (Play(s, script).1 == Drained ==> SettledAfter(end.log, k, i))
  {
    hide AfterTurn, Raises, Waits, SettledAfter, Tables, Consumes;
    var mid, end := Play(s, script[..n]).0, Play(s, script).0;
    PlayContinues(s, script, n);
    TurnLogs(mid, script[n]);
    var t := AfterTurn(mid, script[n]).0;
    assert script[n..][0] == script[n];
    if AfterTurn(mid, script[n]).1.None? {
      PlayDrains(t, script[n..][1..]);
    }
    PlayDrains(s, script);
    PlayKeepsValid(who, s, script);
    NothingWaits(i);
  }

  // ---------------------------------------------------------------- who is told of a tip move

  /** The request that a turn takes up: the smallest pending slot's, a due retry, or one from the channel. */
  ghost function Taken(s: Board, m: Moment): Option<Request> {
    if s.pending != map[] then Some(s.pending[LeastSlot(s.pending.Keys)])
    else if !s.requestsOpen && s.retries == [] then None
    else
      match m.wake
      case Incoming(request) => if s.requestsOpen then Some(request) else None
      case Due(k) => if k < |s.retries| then Some(s.retries[k]) else None
      case _ => None
  }

  /** The turn takes up a request of `i` and finds `i` current. */
  ghost predicate Begins(s: Board, m: Moment, i: Instance) {
    Taken(s, m).Some? && Taken(s, m).value.instance == i && m.serving.current == Some(Some(i.id))
  }

  /** `i` was settled as inactive after the first `from` entries. */
  ghost predicate Retired(log: seq<Entry>, from: nat, i: Instance) {
    exists k :: from <= k < |log| && log[k] == Settled(i, Inactive)
  }

  predicate Activates(s: Board, i: Instance) {
    i.slot in s.activations && s.activations[i.slot] == i
  }

  /** Exactly the instances found current, and neither found inactive nor replaced since, are activated. */
  lemma TurnActivatesIff(s: Board, m: Moment, i: Instance)
    requires AfterTurn(s, m).1.None?
    requires forall slot | slot in s.pending :: s.pending[slot].instance.slot == slot
    ensures var t := AfterTurn(s, m).0;
      Activates(t, i) <==>
        && !Retired(t.log, |s.log|, i)
        && (Begins(s, m, i) || (Activates(s, i) && !exists j :: Begins(s, m, j) && j.slot == i.slot))
  {
    var t := AfterTurn(s, m).0;
    match Taken(s, m)
    case None => TakesNothing(s, m);
    case Some(request) =>
      TakesUp(s, m);
      var end := EndOfService(request, m.serving);
      var asked :| t.log == s.log + asked + Logged(request.instance, end) && (asked == [] || asked == [Asked(request)]);
      NewlyRetired(s.log, asked, Logged(request.instance, end), i);
      ServiceActivatesIff(s, request, m.serving, i);
      hide AfterTurn, EndOfService, Retired, Finished, Activated, Logged, Taken;
      assert m.serving.current == Some(Some(request.instance.id)) ==> Begins(s, m, request.instance);
  }

  lemma NewlyRetired(log: seq<Entry>, asked: seq<Entry>, logged: seq<Entry>, i: Instance)
    requires asked == [] || (|asked| == 1 && asked[0].Asked?)
    ensures Retired(log + asked + logged, |log|, i) <==> Settled(i, Inactive) in logged
  {
    var all := log + asked + logged;
    assert forall k | 0 <= k < |asked| :: all[|log| + k] == asked[k];
    assert forall k | 0 <= k < |logged| :: all[|log| + |asked| + k] == logged[k];
  }

  lemma ServiceActivatesIff(s: Board, request: Request, serving: Serving, i: Instance)
    requires var end := EndOfService(request, serving); !end.Aborts?
    ensures var end, current := EndOfService(request, serving), serving.current == Some(Some(request.instance.id));
      Activates(Finished(Activated(s, request, serving), request.instance, end), i) <==>
        && Settled(i, Inactive) !in Logged(request.instance, end)
        && ((current && request.instance == i) || (Activates(s, i) && !(current && request.instance.slot == i.slot)))
  {
    hide EndOfPasses;
  }

  lemma TakesNothing(s: Board, m: Moment)
    requires AfterTurn(s, m).1.None? && Taken(s, m).None?
    ensures AfterTurn(s, m).0.activations == s.activations
    ensures forall k | |s.log| <= k < |AfterTurn(s, m).0.log| :: !AfterTurn(s, m).0.log[k].Settled?
    ensures forall i :: !Retired(AfterTurn(s, m).0.log, |s.log|, i)
  {
    hide Served;
  }

  lemma TakesUp(s: Board, m: Moment)
    requires AfterTurn(s, m).1.None? && Taken(s, m).Some?
    ensures var request, t := Taken(s, m).value, AfterTurn(s, m).0;
      var end := EndOfService(request, m.serving);
      && !end.Aborts?
      && t.activations == Finished(Activated(s, request, m.serving), request.instance, end).activations
      && (exists asked :: t.log == s.log + asked + Logged(request.instance, end)
                          && (asked == [] || asked == [Asked(request)]))
  {
    hide Served, Finished, Activated, EndOfService, Logged;
    var request := Taken(s, m).value;
    var logged := Logged(request.instance, EndOfService(request, m.serving));
    if s.pending != map[] {
      ServedFrom(s.(pending := s.pending - {LeastSlot(s.pending.Keys)}), s, request, m.serving);
      assert s.log + logged == s.log + [] + logged;
    } else if m.wake.Due? {
      ServedFrom(WithoutRetry(s, m.wake.index), s, request, m.serving);
      assert s.log + logged == s.log + [] + logged;
    } else {
      ServedFrom(s.(log := s.log + [Asked(request)]), s, request, m.serving);
    }
  }

  /** A service reads nothing of the board but its activations, and adds to the log what it settles. */
  lemma ServedFrom(taken: Board, s: Board, request: Request, serving: Serving)
    requires taken.activations == s.activations
    ensures var (t, exit) := Served(taken, request, serving);
      var end := EndOfService(request, serving);
      && t.activations == Finished(Activated(s, request, serving), request.instance, end).activations
      && t.log == taken.log + Logged(request.instance, end)
      && exit == ExitOf(end)
  {
    hide EndOfService, ExitOf, Logged;
    assert Activated(taken, request, serving).activations == Activated(s, request, serving).activations;
    assert Activated(taken, request, serving).log == taken.log;
  }

  /** The turn finds another instance current in the slot of `i`. */
  ghost predicate Replaced(s: Board, m: Moment, i: Instance) {
    exists j :: Begins(s, m, j) && j.slot == i.slot && j != i
  }

  /** An activation lasts until its instance is found inactive or another one takes its slot. */
  lemma {:induction false} ActivationLasts(who: Id -> Instance, s: Board, script: seq<Moment>, i: Instance)
    requires Valid(who, s, None) && (forall m | m in script :: Genuine(who, m)) && Activates(s, i)
    requires Play(s, script).1 == Paused && !Retired(Play(s, script).0.log, |s.log|, i)
    requires forall k: nat | k < |script| :: !Replaced(Play(s, script[..k]).0, script[k], i)
    ensures Activates(Play(s, script).0, i)
    decreases |script|
  {
    hide AfterTurn, Valid, Genuine, Begins, Activates, Retired;
    if script != [] {
      var (t, exit) := AfterTurn(s, script[0]);
      assert script[..0] == [] && Play(s, script[..0]).0 == s;
      TurnExits(s, script[0]);
      ValidRequests(who, s);
      TurnLogs(s, script[0]);
      TurnKeepsValid(who, s, script[0]);
      TurnActivatesIff(s, script[0], i);
      PlayDrains(t, script[1..]);
      RetiredLater(s.log, t.log, Play(s, script).0.log, i);
      forall k: nat | k < |script[1..]| ensures !Replaced(Play(t, script[1..][..k]).0, script[1..][k], i) {
        assert script[..k + 1][0] == script[0] && script[..k + 1][1..] == script[1..][..k];
        assert script[1..][k] == script[k + 1];
      }
      ActivationLasts(who, t, script[1..], i);
    }
  }

  lemma RetiredLater(first: seq<Entry>, second: seq<Entry>, third: seq<Entry>, i: Instance)
    requires first <= second <= third && !Retired(third, |first|, i)
    ensures !Retired(second, |first|, i) && !Retired(third, |second|, i)
  {
    forall k | |first| <= k < |second| ensures second[k] != Settled(i, Inactive) {
      assert third[k] == second[k];
    }
  }

  /** A tip move that the worker takes up is queued for every activated instance, and the move names it. */
  lemma TipMoveQueues(s: Board, m: Moment, i: Instance)
    requires s.pending == map[] && (s.requestsOpen || s.retries != []) && s.tipOpen && m.wake.TipMoved? && Activates(s, i)
    ensures var t := AfterTurn(s, m).0;
      && i.slot in t.pending && t.pending[i.slot] == Request(i, m.wake.tip)
      && |t.log| > 0 && t.log[|t.log| - 1].TipSeen? && t.log[|t.log| - 1].tip == m.wake.tip
      && i in t.log[|t.log| - 1].instances
  {
    assert i in s.activations.Values;
  }

  /**
    An instance that turn `n` found current is told of every tip move the worker takes up later, unless it
    was found inactive or its slot was taken over in between.
   */
  lemma ToldOfEveryMove(who: Id -> Instance, s: Board, script: seq<Moment>, m: Moment, later: Moment, i: Instance)
    requires Valid(who, s, None) && (forall m | m in script :: Genuine(who, m)) && Genuine(who, m)
    requires Begins(s, m, i) && AfterTurn(s, m).1.None?
    requires var t := AfterTurn(s, m).0;
      && Play(t, script).1 == Paused && !Retired(Play(t, script).0.log, |s.log|, i)
      && (forall k: nat | k < |script| :: !Replaced(Play(t, script[..k]).0, script[k], i))
      && var u := Play(t, script).0;
      && u.pending == map[] && (u.requestsOpen || u.retries != []) && u.tipOpen && later.wake.TipMoved?
    ensures var v := AfterTurn(Play(AfterTurn(s, m).0, script).0, later).0;
      && i.slot in v.pending && v.pending[i.slot] == Request(i, later.wake.tip)
      && |v.log| > 0 && v.log[|v.log| - 1].TipSeen? && i in v.log[|v.log| - 1].instances
  {
    var t := AfterTurn(s, m).0;
    TurnKeepsValid(who, s, m);
    ValidRequests(who, s);
    TurnActivatesIff(s, m, i);
    TurnLogs(s, m);
    PlayDrains(t, script);
    RetiredLater(s.log, t.log, Play(t, script).0.log, i);
    hide AfterTurn, Valid, Genuine, Begins, Retired, Replaced;
    ActivationLasts(who, t, script, i);
    TipMoveQueues(Play(t, script).0, later, i);
  }

  // ---------------------------------------------------------------- why work is settled

  /** What one pass must have met for this settlement. */
  predicate Justifies(p: Pass, i: Instance, how: Settlement) {
    match how
    case Covered(reached, read) =>
      p.outcome == Reached(reached) && p.current == Some(Some(i.id)) && p.tip == Current(read) && read.hash == reached.hash
    case Quarantine => p.outcome.Quarantined? && p.healthStored
    case Inactive => p.outcome.Superseded? || (p.outcome.Reached? && p.current.Some? && p.current.value != Some(i.id))
  }

  lemma {:induction false} SettlingPass(i: Instance, passes: seq<Pass>, how: Settlement)
    requires Settled(i, how) in Logged(i, EndOfPasses(i, passes))
    ensures exists p | p in passes :: Justifies(p, i, how)
  {
    if EndOfPass(i, passes[0]).Continues? {
      SettlingPass(i, passes[1..], how);
    } else {
      assert passes[0] in passes;
    }
  }

  /** A settlement is about the request the turn took up, and a pass of its service, or the look before the first, is its reason. */
  lemma SettlementHasCause(s: Board, m: Moment, i: Instance, how: Settlement, k: nat)
    requires AfterTurn(s, m).1.None?
    requires var t := AfterTurn(s, m).0; |s.log| <= k < |t.log| && t.log[k] == Settled(i, how)
    ensures Taken(s, m).Some? && Taken(s, m).value.instance == i
    ensures
      || (how.Inactive? && m.serving.current.Some? && m.serving.current.value != Some(i.id))
      || (Begins(s, m, i) && exists p | p in m.serving.passes :: Justifies(p, i, how))
  {
    var t := AfterTurn(s, m).0;
    if Taken(s, m).None? {
      TakesNothing(s, m);
    } else {
      TakesUp(s, m);
      var request := Taken(s, m).value;
      var logged := Logged(request.instance, EndOfService(request, m.serving));
      var asked :| t.log == s.log + asked + logged && (asked == [] || asked == [Asked(request)]);
      assert forall j | 0 <= j < |asked| :: t.log[|s.log| + j] == asked[j];
      assert t.log[k] == logged[k - |s.log| - |asked|];
      if m.serving.current == Some(Some(request.instance.id)) {
        SettlingPass(i, m.serving.passes, how);
      }
    }
  }

  /** The two channels are closed by their own wakes only. */
  lemma ChannelsCloseOnce(s: Board, m: Moment)
    ensures var t, idle := AfterTurn(s, m).0, s.pending == map[] && (s.requestsOpen || s.retries != []);
      && (t.requestsOpen <==> s.requestsOpen && !(idle && m.wake.RequestsClosed?))
      && (t.tipOpen <==> s.tipOpen && !(idle && m.wake.TipClosed?))
  {
    hide EndOfService;
  }

  lemma NothingWaits(i: Instance)
    ensures !Waits(map[], [], i)
  {
  }

  lemma StartIsValid(who: Id -> Instance)
    ensures Valid(who, START, None)
  {
  }

  // ---------------------------------------------------------------- the worker

  lemma OneMoreRequest(pending: map<Slot, Request>, activations: map<Slot, Instance>, left: set<Slot>, tip: Tip, slot: Slot)
    requires slot in left && slot in activations
    ensures pending + Requests(activations, activations.Keys - (left - {slot}), tip)
            == (pending + Requests(activations, activations.Keys - left, tip))[slot := Request(activations[slot], tip)]
  {
    assert activations.Keys - (left - {slot}) == activations.Keys - left + {slot};
    var most := Requests(activations, activations.Keys - left, tip);
    var all := Requests(activations, activations.Keys - left + {slot}, tip);
    assert all == most[slot := Request(activations[slot], tip)];
  }

  lemma NoRequest(pending: map<Slot, Request>, activations: map<Slot, Instance>, tip: Tip)
    ensures pending + Requests(activations, activations.Keys - activations.Keys, tip) == pending
    ensures activations.Keys - {} == activations.Keys
  {
  }

  /** Each activation's request is inserted in turn, over one already queued for its slot. */
  method QueueAll(pending: map<Slot, Request>, activations: map<Slot, Instance>, tip: Tip)
    returns (queued: map<Slot, Request>)
    ensures queued == pending + Requests(activations, activations.Keys, tip)
  {
    NoRequest(pending, activations, tip);
    hide Requests;
    queued := pending;
    var left := activations.Keys;
    while left != {}
      invariant left <= activations.Keys
      invariant queued == pending + Requests(activations, activations.Keys - left, tip)
      decreases |left|
    {
      var slot :| slot in left;
      OneMoreRequest(pending, activations, left, tip, slot);
      queued := queued[slot := Request(activations[slot], tip)];
      left := left - {slot};
    }
  }

  class Worker {
    var requestsOpen: bool
    var tipOpen: bool
    var activations: map<Slot, Instance>
    var pending: map<Slot, Request>
    var deferred: set<Id>
    var retries: seq<Request>
    ghost var log: seq<Entry>

    constructor (ghost who: Id -> Instance)
      ensures State() == START && Valid(who, State(), None)
    {
      requestsOpen, tipOpen, activations, pending, deferred, retries := true, true, map[], map[], {}, [];
      log := [];
      new;
      StartIsValid(who);
    }

    ghost function State(): Board
      reads this
    {
      Board(requestsOpen, tipOpen, activations, pending, deferred, retries, log)
    }

    /** `schedule_backfill_retry`. */
    method ScheduleRetry(request: Request)
      modifies this`deferred, this`retries
      ensures State() == Finished(old(State()), request.instance, Retries(request.target))
    {
      if request.instance.id !in deferred {
        deferred := deferred + {request.instance.id};
        retries := retries + [request];
      }
      assert log + [] == log;
    }

    /** `queue_tip_reconciliations`. */
    method QueueTipReconciliations(tip: Tip)
      modifies this`pending, this`log
      ensures State() == Queued(old(State()), tip)
    {
      pending := QueueAll(pending, activations, tip);
      log := log + [TipSeen(tip, activations.Values)];
    }

    /** One pass and what follows it; `again` asks for another pass on the new target. */
    method AfterPass(instance: Instance, target: Tip, pass: Pass)
      returns (again: bool, next: Tip, exit: Option<Exit>)
      modifies this`activations, this`deferred, this`retries, this`log
      ensures State() == Finished(old(State()), instance, EndOfPass(instance, pass))
      ensures exit == ExitOf(EndOfPass(instance, pass))
      ensures again <==> EndOfPass(instance, pass).Continues?
      ensures again ==> next == EndOfPass(instance, pass).tip
    {
      again, next, exit := false, target, None;
      assert log + [] == log && retries + [] == retries && deferred + {} == deferred;
      match pass.outcome
      case Broken =>
        exit := Some(Failed);
      case Interrupted =>
        exit := Some(ShutDown);
      case Superseded =>
        activations := activations - {instance.slot};
        log := log + [Settled(instance, Inactive)];
      case Quarantined =>
        if !pass.healthStored {
          exit := Some(Failed);
        } else {
          log := log + [Settled(instance, Quarantine)];
        }
      case Deferred(left) =>
        ScheduleRetry(Request(instance, left));
      case Reached(reached) =>
        next := reached;
        if pass.current.None? {
          exit := Some(Failed);
        } else if pass.current.value != Some(instance.id) {
          activations := activations - {instance.slot};
          log := log + [Settled(instance, Inactive)];
        } else {
          match pass.tip
          case Fatal => exit := Some(Failed);
          case Unreachable => ScheduleRetry(Request(instance, reached));
          case Current(tip) =>
            if tip.hash == reached.hash {
              log := log + [Settled(instance, Covered(reached, tip))];
            } else {
              again, next := true, tip;
            }
        }
    }

    /** Everything the worker does for one request it took. */
    method Serve(request: Request, serving: Serving) returns (exit: Option<Exit>)
      requires request.instance.slot !in pending
      modifies this`activations, this`deferred, this`retries, this`log
      ensures (State(), exit) == Served(old(State()), request, serving)
    {
      var instance, slot := request.instance, request.instance.slot;
      assert log + [] == log && retries + [] == retries && deferred + {} == deferred;
      if serving.current.None? {
        return Some(Failed);
      }
      if serving.current.value != Some(instance.id) {
        if slot in activations && activations[slot] == instance {
          activations := activations - {slot};
        }
        log := log + [Settled(instance, Inactive)];
        return None;
      }
      activations := activations[slot := instance];
      // The program drops a queued request of the same instance here; there never is one.
      assert slot !in pending;
      var target := request.target;
      ghost var active := State();
      for i := 0 to |serving.passes|
        invariant State() == active
        invariant forall k | 0 <= k < i :: EndOfPass(instance, serving.passes[k]).Continues?
      {
        PassesUpTo(instance, serving.passes, i);
        assert serving.passes[i..][0] == serving.passes[i];
        var again;
        again, target, exit := AfterPass(instance, target, serving.passes[i]);
        if !again || exit.Some? {
          return exit;
        }
      }
      PassesUpTo(instance, serving.passes, |serving.passes|);
      return Some(Killed);
    }

    /** One turn: a pending request first, else whatever wakes the worker. */
    method Turn(moment: Moment) returns (exit: Option<Exit>)
      requires forall s | s in pending :: pending[s].instance.slot == s
      modifies this
      ensures (State(), exit) == AfterTurn(old(State()), moment)
    {
      hide Served;
      if !requestsOpen && pending == map[] && retries == [] {
        return Some(Drained);
      }
      if pending != map[] {
        var slot := SmallestSlot(pending.Keys);
        var request := pending[slot];
        pending := pending - {slot};
        exit := Serve(request, moment.serving);
        return;
      }
      exit := None;
      match moment.wake
      case Shutdown => exit := Some(ShutDown);
      case RequestsClosed => requestsOpen := false;
      case TipClosed => tipOpen := false;
      case TipMoved(tip) =>
        if tipOpen {
          QueueTipReconciliations(tip);
        }
      case Due(index) =>
        if index < |retries| {
          var request := retries[index];
          retries := retries[..index] + retries[index + 1..];
          deferred := deferred - {request.instance.id};
          exit := Serve(request, moment.serving);
        }
      case Incoming(request) =>
        if requestsOpen {
          log := log + [Asked(request)];
          exit := Serve(request, moment.serving);
        }
    }

    /** `backfill_sidechains` over any script of wakes and passes. */
    method Run(script: seq<Moment>, ghost who: Id -> Instance) returns (exit: Exit)
      requires Valid(who, State(), None) && forall m | m in script :: Genuine(who, m)
      modifies this
      ensures (State(), exit) == Play(old(State()), script)
      ensures exit in {Paused, Drained} ==> Valid(who, State(), None)
    {
      hide AfterTurn, Valid, Genuine;
      ghost var start := State();
      assert script[0..] == script;
      PlayIfKept(who, start, script);
      for n := 0 to |script|
        invariant Valid(who, State(), None) && Play(start, script) == Play(State(), script[n..])
      {
        assert script[n..][0] == script[n] && script[n..][1..] == script[n + 1..] && script[n] in script;
        ghost var before := State();
        ValidRequests(who, before);
        var ended := Turn(script[n]);
        if ended.Some? {
          return ended.value;
        }
        TurnKeepsValid(who, before, script[n]);
      }
      return Paused;
    }
  }

  lemma PlayIfKept(who: Id -> Instance, s: Board, script: seq<Moment>)
    requires Valid(who, s, None) && forall m | m in script :: Genuine(who, m)
    ensures Play(s, script).1 in {Paused, Drained} ==> Valid(who, Play(s, script).0, None)
  {
    if Play(s, script).1 in {Paused, Drained} {
      PlayKeepsValid(who, s, script);
    }
  }
}
