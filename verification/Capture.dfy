/**
  Recording a batch of events in one transaction: facts are deduplicated, every event is one more
  observation with its own capture sequence, and slot events are tagged with a sidechain instance.
 */
module Capture {
  import opened Wrappers

  type Slot = nat
  type Instance = string

  /** One entry of an active-sidechains reading; `genuine` says its description hash checks out. */
  datatype Active = Active(slot: Slot, id: Instance, genuine: bool)

  datatype Event =
    | ActiveSidechains(list: seq<Active>, observedAt: nat, anchor: Option<nat>, payload: nat)
    | SlotEvent(slot: Slot, anchor: Option<nat>, payload: nat)
    | GlobalEvent(anchor: Option<nat>, payload: nat)

  /** The identity columns of a fact: its slot, its instance, its block and the digest of its payload. */
  datatype Fact = Fact(slot: Option<Slot>, instance: Option<Instance>, anchor: Option<nat>, payload: nat)

  datatype Current = Current(id: Instance, observedAt: nat)

  datatype Explicit = Explicit(slot: Slot, id: Instance)

  /** `observed` maps a capture sequence of the run to the position of its fact. */
  datatype Tables = Tables(
    facts: seq<Fact>,
    observed: map<nat, nat>,
    tips: set<nat>,
    lastSeq: nat,
    running: bool,
    instances: set<(Slot, Instance)>,
    current: map<Slot, Current>)

  const MAX_SLOT: nat := 255

  // ---------------------------------------------------------------- the current-instance table

  predicate Listed(list: seq<Active>, slot: Slot, id: Instance) {
    exists a | a in list :: a.slot == slot && a.id == id
  }

  /** `DELETE`: rows that the reading does not repeat exactly. */
  function Retire(current: map<Slot, Current>, list: seq<Active>): map<Slot, Current> {
    map slot | slot in current && Listed(list, slot, current[slot].id) :: current[slot]
  }

  /** `INSERT .. ON CONFLICT DO NOTHING`: the first row for a slot stays. */
  function Fill(current: map<Slot, Current>, list: seq<Active>, at: nat): map<Slot, Current>
    decreases |list|
  {
    if list == [] then current
    else
      Fill(if list[0].slot in current then current else current[list[0].slot := Current(list[0].id, at)], list[1..], at)
  }

  function Refreshed(current: map<Slot, Current>, list: seq<Active>, at: nat): map<Slot, Current> {
    Fill(Retire(current, list), list, at)
  }

  /** `instance_cache.extend`: the last entry for a slot wins. */
  function CacheOf(list: seq<Active>): map<Slot, Instance> {
    if list == [] then map[]
    else CacheOf(list[..|list| - 1])[list[|list| - 1].slot := list[|list| - 1].id]
  }

  function Ids(current: map<Slot, Current>): map<Slot, Instance> {
    map slot | slot in current :: current[slot].id
  }

  function First(list: seq<Active>, slot: Slot): Option<Instance> {
    if list == [] then None
    else if list[0].slot == slot then Some(list[0].id)
    else First(list[1..], slot)
  }

  /** The row a refreshed table holds for a slot: an exact repetition keeps its row, else the first entry. */
  function KeptRow(current: map<Slot, Current>, list: seq<Active>, at: nat, slot: Slot): Option<Current> {
    if slot in current && Listed(list, slot, current[slot].id) then Some(current[slot])
    else match First(list, slot)
      case None => None
      case Some(id) => Some(Current(id, at))
  }

  function Row<K, V>(m: map<K, V>, k: K): Option<V> {
    if k in m then Some(m[k]) else None
  }

  lemma {:induction false} FillMeaning(current: map<Slot, Current>, list: seq<Active>, at: nat, slot: Slot)
    ensures Row(Fill(current, list, at), slot) ==
      if slot in current then Some(current[slot])
      else match First(list, slot) case None => None case Some(id) => Some(Current(id, at))
    decreases |list|
  {
    if list != [] {
      FillMeaning(if list[0].slot in current then current else current[list[0].slot := Current(list[0].id, at)],
                  list[1..], at, slot);
    }
  }

  lemma RefreshedMeaning(current: map<Slot, Current>, list: seq<Active>, at: nat, slot: Slot)
    ensures Row(Refreshed(current, list, at), slot) == KeptRow(current, list, at, slot)
  {
    FillMeaning(Retire(current, list), list, at, slot);
  }

  predicate DistinctSlots(list: seq<Active>) {
    forall i, j | 0 <= i < j < |list| :: list[i].slot != list[j].slot
  }

  lemma {:induction false} CacheOfMeaning(list: seq<Active>, slot: Slot)
    ensures slot in CacheOf(list) <==> exists a | a in list :: a.slot == slot
    ensures slot in CacheOf(list) ==> Listed(list, slot, CacheOf(list)[slot])
  {
    if list != [] {
      var init, last := list[..|list| - 1], list[|list| - 1];
      assert list == init + [last];
      CacheOfMeaning(init, slot);
      if last.slot != slot && slot in CacheOf(list) {
        assert Listed(init, slot, CacheOf(init)[slot]);
      }
    }
  }

  lemma {:induction false} FirstMeaning(list: seq<Active>, slot: Slot)
    ensures First(list, slot).None? <==> forall a | a in list :: a.slot != slot
    ensures First(list, slot).Some? ==> Listed(list, slot, First(list, slot).value)
  {
    if list != [] {
      assert list == [list[0]] + list[1..];
      FirstMeaning(list[1..], slot);
      if list[0].slot == slot {
        assert Listed(list, slot, list[0].id);
      }
    }
  }

  /**
    After an authoritative reading the cache answers as the table does exactly when, for each slot,
    the last entry is the row the table kept: its unchanged row if repeated, else the first entry.
   */
  lemma CacheAgreesIff(current: map<Slot, Current>, list: seq<Active>, at: nat)
    ensures CacheOf(list) == Ids(Refreshed(current, list, at)) <==>
      forall slot | slot in CacheOf(list) ::
        KeptRow(current, list, at, slot).Some? && CacheOf(list)[slot] == KeptRow(current, list, at, slot).value.id
  {
    var table := Refreshed(current, list, at);
    forall slot: Slot ensures Row(table, slot) == KeptRow(current, list, at, slot) {
      RefreshedMeaning(current, list, at, slot);
    }
    forall slot: Slot ensures slot in CacheOf(list) <==> KeptRow(current, list, at, slot).Some? {
      CacheOfMeaning(list, slot);
      FirstMeaning(list, slot);
    }
    forall slot: Slot ensures slot in table <==> slot in CacheOf(list) {
      assert Row(table, slot) == KeptRow(current, list, at, slot);
    }
    if forall slot | slot in CacheOf(list) :: CacheOf(list)[slot] == KeptRow(current, list, at, slot).value.id {
      forall slot | slot in CacheOf(list) ensures CacheOf(list)[slot] == table[slot].id {
        assert Row(table, slot) == KeptRow(current, list, at, slot);
      }
      assert CacheOf(list) == Ids(table);
    } else {
      var slot :| slot in CacheOf(list) && CacheOf(list)[slot] != KeptRow(current, list, at, slot).value.id;
      assert Row(table, slot) == KeptRow(current, list, at, slot);
      assert Ids(table)[slot] == table[slot].id;
    }
  }

  lemma ListedOnce(list: seq<Active>, slot: Slot, a: Instance, b: Instance)
    requires DistinctSlots(list) && Listed(list, slot, a) && Listed(list, slot, b)
    ensures a == b
  {
    var x :| x in list && x.slot == slot && x.id == a;
    var y :| y in list && y.slot == slot && y.id == b;
    var i :| 0 <= i < |list| && list[i] == x;
    var j :| 0 <= j < |list| && list[j] == y;
    assert i == j;
  }

  /** A reading that names each slot once: cache, table and reading are the same map. */
  lemma DistinctReadingIsTheTable(current: map<Slot, Current>, list: seq<Active>, at: nat)
    requires DistinctSlots(list)
    ensures var table := Refreshed(current, list, at);
      && CacheOf(list) == Ids(table)
      && (forall slot, id :: Row(Ids(table), slot) == Some(id) <==> Listed(list, slot, id))
      && (forall slot | slot in table ::
            table[slot] == if slot in current && current[slot].id == table[slot].id then current[slot]
                           else Current(table[slot].id, at))
  {
    var table := Refreshed(current, list, at);
    forall slot | slot in CacheOf(list)
      ensures KeptRow(current, list, at, slot).Some? && CacheOf(list)[slot] == KeptRow(current, list, at, slot).value.id
    {
      DistinctSlotRow(current, list, at, slot);
    }
    CacheAgreesIff(current, list, at);
    forall slot, id ensures Row(Ids(table), slot) == Some(id) <==> Listed(list, slot, id) {
      CacheOfMeaning(list, slot);
      if slot in CacheOf(list) && Listed(list, slot, id) {
        ListedOnce(list, slot, id, CacheOf(list)[slot]);
      }
    }
    forall slot | slot in table
      ensures table[slot] == if slot in current && current[slot].id == table[slot].id then current[slot]
                             else Current(table[slot].id, at)
    {
      RefreshedMeaning(current, list, at, slot);
      assert Row(Ids(table), slot) == Some(table[slot].id);
      assert Listed(list, slot, table[slot].id);
    }
  }

  lemma DistinctSlotRow(current: map<Slot, Current>, list: seq<Active>, at: nat, slot: Slot)
    requires DistinctSlots(list) && slot in CacheOf(list)
    ensures KeptRow(current, list, at, slot).Some? && CacheOf(list)[slot] == KeptRow(current, list, at, slot).value.id
  {
    CacheOfMeaning(list, slot);
    FirstMeaning(list, slot);
    ListedOnce(list, slot, CacheOf(list)[slot], KeptRow(current, list, at, slot).value.id);
  }

  /** A reading that repeats a slot can leave the cache and the table apart. */
  lemma RepeatedSlotDisagrees()
    ensures exists current: map<Slot, Current>, list: seq<Active> :: CacheOf(list) != Ids(Refreshed(current, list, 7))
  {
    var a, b := Active(1, "a", true), Active(1, "b", true);
    var list := [a, b];
    assert list[..1] == [a] && [a][..0] == [];
    assert CacheOf([a]) == CacheOf([])[1 := "a"];
    assert CacheOf(list) == CacheOf([a])[1 := "b"];
    assert First(list, 1) == Some("a");
    RefreshedMeaning(map[], list, 7, 1);
    assert Row(Refreshed(map[], list, 7), 1) == Some(Current("a", 7));
    assert Ids(Refreshed(map[], list, 7))[1] == "a";
  }

  // ---------------------------------------------------------------- one event

  predicate Acceptable(list: seq<Active>) {
    forall a | a in list :: a.slot <= MAX_SLOT && a.genuine
  }

  function Registrations(list: seq<Active>): set<(Slot, Instance)> {
    set a | a in list :: (a.slot, a.id)
  }

  /** Every reading registers its instances; only an authoritative one changes which are current. */
  function UpdateInstances(t: Tables, e: Event, authoritative: bool): Option<Tables> {
    if !e.ActiveSidechains? then Some(t)
    else if !Acceptable(e.list) then None
    else
      var registered := t.(instances := t.instances + Registrations(e.list));
      Some(if authoritative then registered.(current := Refreshed(t.current, e.list, e.observedAt)) else registered)
  }

  function SlotOf(e: Event): Option<Slot> {
    if e.SlotEvent? then Some(e.slot) else None
  }

  /** The instance an event is recorded under, read from the table; the outer `None` is an error. */
  function Tag(current: map<Slot, Current>, e: Event, explicit: Option<Explicit>): Option<Option<Instance>> {
    if !e.SlotEvent? then
      if explicit.Some? then None else Some(None)
    else if explicit.Some? then
      if explicit.value.slot == e.slot then Some(Some(explicit.value.id)) else None
    else
      if e.slot in current then Some(Some(current[e.slot].id)) else None
  }

  function IndexOf(facts: seq<Fact>, f: Fact): (i: nat)
    requires f in facts
    ensures i < |facts| && facts[i] == f
  {
    assert facts == [facts[0]] + facts[1..];
    if facts[0] == f then 0 else 1 + IndexOf(facts[1..], f)
  }

  /** A new fact or the existing one, and in both cases one observation of it. */
  function Observe(t: Tables, f: Fact, seqNo: nat): Tables {
    var facts := if f in t.facts then t.facts else t.facts + [f];
    t.(facts := facts, observed := t.observed[seqNo := IndexOf(facts, f)])
  }

  function InsertEvent(t: Tables, e: Event, seqNo: nat, explicit: Option<Explicit>, authoritative: bool): Option<Tables> {
    match UpdateInstances(t, e, authoritative)
    case None => None
    case Some(u) =>
      match Tag(u.current, e, explicit)
      case None => None
      case Some(instance) => Some(Observe(u, Fact(SlotOf(e), instance, e.anchor, e.payload), seqNo))
  }

  function InsertEvents(t: Tables, es: seq<Event>, first: nat, explicit: Option<Explicit>, authoritative: bool): Option<Tables>
    decreases |es|
  {
    if es == [] then Some(t)
    else
      match InsertEvent(t, es[0], first, explicit, authoritative)
      case None => None
      case Some(u) => InsertEvents(u, es[1..], first + 1, explicit, authoritative)
  }

  // ---------------------------------------------------------------- transactions

  predicate Registered(t: Tables, explicit: Option<Explicit>) {
    explicit.Some? ==> (explicit.value.slot, explicit.value.id) in t.instances
  }

  /** A batch reserves one capture sequence per event; `None` is a transaction that rolled back. */
  function RecordBatch(t: Tables, es: seq<Event>, explicit: Option<Explicit>, authoritative: bool): Option<Tables> {
    if es == [] then Some(t)
    else if !Registered(t, explicit) || !t.running then None
    else InsertEvents(t.(lastSeq := t.lastSeq + |es|), es, t.lastSeq + 1, explicit, authoritative)
  }

  function RecordTip(t: Tables): Option<Tables> {
    if t.running then Some(t.(tips := t.tips + {t.lastSeq + 1}, lastSeq := t.lastSeq + 1)) else None
  }

  datatype Step = Batch(es: seq<Event>, explicit: Option<Explicit>, authoritative: bool) | TipMove | Finish

  function Apply(t: Tables, step: Step): Tables {
    match step
    case Batch(es, explicit, authoritative) => RecordBatch(t, es, explicit, authoritative).Or(t)
    case TipMove => RecordTip(t).Or(t)
    case Finish => t.(running := false)
  }

  function Play(t: Tables, steps: seq<Step>): Tables
    decreases |steps|
  {
    if steps == [] then t else Play(Apply(t, steps[0]), steps[1..])
  }

  // ---------------------------------------------------------------- capture sequences are exact

  /** Exactly the sequences 1..used are taken, each by one event observation or one tip observation. */
  ghost predicate SequencesTaken(t: Tables, used: nat) {
    && (forall k | k in t.observed :: 1 <= k <= used && k !in t.tips)
    && (forall k | k in t.tips :: 1 <= k <= used)
    && (forall k | 1 <= k <= used :: k in t.observed || k in t.tips)
  }

  ghost predicate Distinct(facts: seq<Fact>) {
    forall i, j | 0 <= i < j < |facts| :: facts[i] != facts[j]
  }

  ghost predicate RowsLinked(t: Tables) {
    && (forall k | k in t.observed :: t.observed[k] < |t.facts|)
    && (forall slot | slot in t.current :: (slot, t.current[slot].id) in t.instances)
  }

  ghost predicate Inv(t: Tables) {
    SequencesTaken(t, t.lastSeq) && Distinct(t.facts) && RowsLinked(t)
  }

  /** In the middle of a batch: the sequences after `used` are reserved but not written yet. */
  ghost predicate Midway(t: Tables, used: nat) {
    SequencesTaken(t, used) && Distinct(t.facts) && RowsLinked(t)
  }

  /** Facts stay at their positions, observations and registrations are kept. */
  ghost predicate Extends(t: Tables, u: Tables) {
    && t.facts <= u.facts && t.instances <= u.instances
    && u.tips == t.tips && u.running == t.running && u.lastSeq == t.lastSeq
    && (forall k | k in t.observed :: k in u.observed && u.observed[k] == t.observed[k])
  }

  /** The fact an event is recorded as, whatever instance it was tagged with. */
  predicate Describes(f: Fact, e: Event) {
    f.slot == SlotOf(e) && f.anchor == e.anchor && f.payload == e.payload
    && (f.instance.Some? <==> e.SlotEvent?)
  }

  predicate ObservesAt(t: Tables, k: nat, e: Event) {
    k in t.observed && t.observed[k] < |t.facts| && Describes(t.facts[t.observed[k]], e)
  }

  lemma RefreshedIsRegistered(t: Tables, list: seq<Active>, at: nat)
    requires forall slot | slot in t.current :: (slot, t.current[slot].id) in t.instances
    ensures forall slot | slot in Refreshed(t.current, list, at) ::
      (slot, Refreshed(t.current, list, at)[slot].id) in t.instances + Registrations(list)
  {
    var table := Refreshed(t.current, list, at);
    forall slot | slot in table ensures (slot, table[slot].id) in t.instances + Registrations(list) {
      RefreshedMeaning(t.current, list, at, slot);
      assert Row(table, slot) == Some(table[slot]);
      FirstMeaning(list, slot);
    }
  }

  /** A new fact keeps the facts distinct and in place. */
  lemma ObservedFacts(t: Tables, f: Fact, seqNo: nat)
    requires Distinct(t.facts)
    ensures var u := Observe(t, f, seqNo);
      && Distinct(u.facts) && t.facts <= u.facts
      && u == t.(facts := u.facts, observed := t.observed[seqNo := u.observed[seqNo]])
      && u.observed[seqNo] < |u.facts| && u.facts[u.observed[seqNo]] == f
  {
  }

  lemma ObserveKeepsMidway(t: Tables, f: Fact, used: nat)
    requires Midway(t, used)
    ensures var u := Observe(t, f, used + 1);
      && Midway(u, used + 1) && Extends(t, u)
      && |u.observed| == |t.observed| + 1
      && used + 1 in u.observed && u.observed[used + 1] < |u.facts| && u.facts[u.observed[used + 1]] == f
  {
    ObservedFacts(t, f, used + 1);
    var u := Observe(t, f, used + 1);
    hide Observe, Distinct;
    assert used + 1 !in t.observed;
    assert |u.observed| == |t.observed| + 1;
  }

  lemma UpdateKeepsMidway(t: Tables, e: Event, used: nat, authoritative: bool)
    requires Midway(t, used) && UpdateInstances(t, e, authoritative).Some?
    ensures var u := UpdateInstances(t, e, authoritative).value;
      Midway(u, used) && Extends(t, u) && u.facts == t.facts && u.observed == t.observed
  {
    if e.ActiveSidechains? {
      RefreshedIsRegistered(t, e.list, e.observedAt);
    }
  }

  lemma EventKeepsMidway(t: Tables, e: Event, used: nat, explicit: Option<Explicit>, authoritative: bool)
    requires Midway(t, used) && InsertEvent(t, e, used + 1, explicit, authoritative).Some?
    ensures var u := InsertEvent(t, e, used + 1, explicit, authoritative).value;
      && Midway(u, used + 1) && Extends(t, u)
      && |u.observed| == |t.observed| + 1 && ObservesAt(u, used + 1, e)
  {
    UpdateKeepsMidway(t, e, used, authoritative);
    var mid := UpdateInstances(t, e, authoritative).value;
    var instance := Tag(mid.current, e, explicit).value;
    ObserveKeepsMidway(mid, Fact(SlotOf(e), instance, e.anchor, e.payload), used);
  }

  /** Every event of `es` is observed, under consecutive sequences after `used`. */
  ghost predicate ObservesAll(u: Tables, es: seq<Event>, used: nat) {
    forall i | 0 <= i < |es| :: ObservesAt(u, used + 1 + i, es[i])
  }

  lemma ObservesFirst(t: Tables, mid: Tables, u: Tables, es: seq<Event>, used: nat)
    requires es != [] && Extends(t, mid) && Extends(mid, u)
    requires ObservesAt(mid, used + 1, es[0]) && ObservesAll(u, es[1..], used + 1)
    ensures Extends(t, u) && ObservesAll(u, es, used)
  {
    forall i | 0 <= i < |es| ensures ObservesAt(u, used + 1 + i, es[i]) {
      if i > 0 {
        assert ObservesAt(u, used + 1 + 1 + (i - 1), es[1..][i - 1]);
      }
    }
  }

  lemma InsertFirst(t: Tables, es: seq<Event>, first: nat, explicit: Option<Explicit>, authoritative: bool)
    requires es != []
    ensures var mid := InsertEvent(t, es[0], first, explicit, authoritative);
      InsertEvents(t, es, first, explicit, authoritative)
      == if mid.None? then None else InsertEvents(mid.value, es[1..], first + 1, explicit, authoritative)
  {
  }

  lemma {:induction false} EventsKeepMidway(t: Tables, es: seq<Event>, used: nat, explicit: Option<Explicit>,
                                            authoritative: bool, u: Tables)
    requires Midway(t, used) && InsertEvents(t, es, used + 1, explicit, authoritative) == Some(u)
    ensures Midway(u, used + |es|) && Extends(t, u)
    ensures |u.observed| == |t.observed| + |es| && ObservesAll(u, es, used)
    decreases |es|
  {
    hide InsertEvent;
    if es != [] {
      InsertFirst(t, es, used + 1, explicit, authoritative);
      var mid := InsertEvent(t, es[0], used + 1, explicit, authoritative).value;
      EventKeepsMidway(t, es[0], used, explicit, authoritative);
      EventsKeepMidway(mid, es[1..], used + 1, explicit, authoritative, u);
      ObservesFirst(t, mid, u, es, used);
    }
  }

  lemma MidwayReadsUsed(t: Tables, u: Tables, used: nat)
    requires Midway(t, used) && u == t.(lastSeq := u.lastSeq)
    ensures Midway(u, used)
  {
  }

  /** A committed batch: one observation per event, each of one fact that describes that event. */
  lemma BatchObservesEachEvent(t: Tables, es: seq<Event>, explicit: Option<Explicit>, authoritative: bool, u: Tables)
    requires Inv(t) && RecordBatch(t, es, explicit, authoritative) == Some(u)
    ensures Inv(u) && Extends(t.(lastSeq := u.lastSeq), u)
    ensures u.lastSeq == t.lastSeq + |es| && |u.observed| == |t.observed| + |es|
    ensures ObservesAll(u, es, t.lastSeq)
  {
    hide InsertEvents, SequencesTaken, Distinct, RowsLinked;
    if es != [] {
      MidwayReadsUsed(t, t.(lastSeq := t.lastSeq + |es|), t.lastSeq);
      hide ObservesAll;
      EventsKeepMidway(t.(lastSeq := t.lastSeq + |es|), es, t.lastSeq, explicit, authoritative, u);
    }
  }

  // ---------------------------------------------------------------- when a batch commits, and under which instance

  /** The current instances that event `i` of a batch meets: those an authoritative reading before it left, if there was one. */
  function CurrentAt(current: map<Slot, Current>, es: seq<Event>, authoritative: bool, i: nat): map<Slot, Current>
    requires i <= |es|
    decreases i
  {
    if i == 0 then current
    else CurrentAt(if es[0].ActiveSidechains? && authoritative then Refreshed(current, es[0].list, es[0].observedAt) else current,
                   es[1..], authoritative, i - 1)
  }

  /** The event can be recorded: a genuine reading, or a slot event with its own or a current instance. */
  predicate Recordable(current: map<Slot, Current>, e: Event, explicit: Option<Explicit>) {
    match e
    case ActiveSidechains(list, _, _, _) => explicit.None? && Acceptable(list)
    case GlobalEvent(_, _) => explicit.None?
    case SlotEvent(slot, _, _) => if explicit.Some? then explicit.value.slot == slot else slot in current
  }

  /** The instance a slot event belongs to. */
  predicate BelongsTo(current: map<Slot, Current>, e: Event, explicit: Option<Explicit>, instance: Option<Instance>) {
    match e
    case SlotEvent(slot, _, _) =>
      if explicit.Some? then instance == Some(explicit.value.id)
      else slot in current && instance == Some(current[slot].id)
    case _ => instance.None?
  }

  ghost predicate AllRecordable(current: map<Slot, Current>, es: seq<Event>, explicit: Option<Explicit>, authoritative: bool) {
    forall i: nat | i < |es| :: Recordable(CurrentAt(current, es, authoritative, i), es[i], explicit)
  }

  /** Observation `used + 1 + i` is of event `i`, under the instance that event met. */
  ghost predicate TaggedAt(u: Tables, current: map<Slot, Current>, es: seq<Event>, used: nat, explicit: Option<Explicit>,
                           authoritative: bool, i: nat)
    requires i < |es|
  {
    && used + 1 + i in u.observed && u.observed[used + 1 + i] < |u.facts|
    && BelongsTo(CurrentAt(current, es, authoritative, i), es[i], explicit, u.facts[u.observed[used + 1 + i]].instance)
  }

  lemma TagMeaning(t: Tables, e: Event, explicit: Option<Explicit>, authoritative: bool)
    ensures var u := UpdateInstances(t, e, authoritative);
      && (u.Some? && Tag(u.value.current, e, explicit).Some? <==> Recordable(t.current, e, explicit))
      && (u.Some? && Tag(u.value.current, e, explicit).Some? ==>
            && BelongsTo(t.current, e, explicit, Tag(u.value.current, e, explicit).value)
            && u.value.current == CurrentAt(t.current, [e], authoritative, 1))
  {
    assert CurrentAt(t.current, [e], authoritative, 1)
        == CurrentAt(if e.ActiveSidechains? && authoritative then Refreshed(t.current, e.list, e.observedAt) else t.current,
                     [e][1..], authoritative, 0);
    hide Refreshed, Registrations, Acceptable;
  }

  lemma EventRecorded(t: Tables, e: Event, used: nat, explicit: Option<Explicit>, authoritative: bool)
    requires Midway(t, used)
    ensures var u := InsertEvent(t, e, used + 1, explicit, authoritative);
      && (u.Some? <==> Recordable(t.current, e, explicit))
      && (u.Some? ==>
            && u.value.current == CurrentAt(t.current, [e], authoritative, 1)
            && TaggedAt(u.value, t.current, [e], used, explicit, authoritative, 0))
  {
    TagMeaning(t, e, explicit, authoritative);
    hide UpdateInstances, Tag, Recordable, BelongsTo, Midway, Observe;
    var u := UpdateInstances(t, e, authoritative);
    if u.Some? && Tag(u.value.current, e, explicit).Some? {
      UpdateKeepsMidway(t, e, used, authoritative);
      var f := Fact(SlotOf(e), Tag(u.value.current, e, explicit).value, e.anchor, e.payload);
      ObserveKeepsMidway(u.value, f, used);
      ObserveKeepsCurrent(u.value, f, used + 1);
    }
  }

  lemma ObserveKeepsCurrent(t: Tables, f: Fact, seqNo: nat)
    ensures Observe(t, f, seqNo).current == t.current
  {
  }

  lemma RestRecordable(current: map<Slot, Current>, es: seq<Event>, explicit: Option<Explicit>, authoritative: bool)
    requires es != []
    ensures var next := CurrentAt(current, [es[0]], authoritative, 1);
      && (AllRecordable(current, es, explicit, authoritative) <==>
            && Recordable(current, es[0], explicit)
            && AllRecordable(next, es[1..], explicit, authoritative))
      && forall i: nat | i < |es| :: CurrentAt(current, es, authoritative, i + 1) == CurrentAt(next, es[1..], authoritative, i)
  {
    hide Recordable, Refreshed;
    var next := CurrentAt(current, [es[0]], authoritative, 1);
    assert next == CurrentAt(if es[0].ActiveSidechains? && authoritative then Refreshed(current, es[0].list, es[0].observedAt)
                             else current, [es[0]][1..], authoritative, 0);
    assert CurrentAt(current, es, authoritative, 0) == current;
    forall i: nat | i < |es|
      ensures CurrentAt(current, es, authoritative, i + 1) == CurrentAt(next, es[1..], authoritative, i)
    {
    }
    if AllRecordable(current, es, explicit, authoritative) {
      forall i: nat | i < |es[1..]| ensures Recordable(CurrentAt(next, es[1..], authoritative, i), es[1..][i], explicit) {
        assert Recordable(CurrentAt(current, es, authoritative, i + 1), es[i + 1], explicit);
      }
      assert Recordable(CurrentAt(current, es, authoritative, 0), es[0], explicit);
    }
    if Recordable(current, es[0], explicit) && AllRecordable(next, es[1..], explicit, authoritative) {
      forall i: nat | i < |es| ensures Recordable(CurrentAt(current, es, authoritative, i), es[i], explicit) {
        if i > 0 {
          assert Recordable(CurrentAt(next, es[1..], authoritative, i - 1), es[1..][i - 1], explicit);
        }
      }
    }
  }

  /** The events of a batch are recorded if and only if each one can be, and each under the instance it met. */
  lemma {:induction false} EventsRecordedIff(t: Tables, es: seq<Event>, used: nat, explicit: Option<Explicit>, authoritative: bool)
    requires Midway(t, used)
    ensures var u := InsertEvents(t, es, used + 1, explicit, authoritative);
      && (u.Some? <==> AllRecordable(t.current, es, explicit, authoritative))
      && (u.Some? ==>
            && u.value.current == CurrentAt(t.current, es, authoritative, |es|)
            && forall i: nat | i < |es| :: TaggedAt(u.value, t.current, es, used, explicit, authoritative, i))
    decreases |es|
  {
    hide InsertEvent, Recordable, BelongsTo, Midway, AllRecordable;
    if es == [] {
      AllOfNone(t.current, es, explicit, authoritative);
    } else {
      InsertFirst(t, es, used + 1, explicit, authoritative);
      RestRecordable(t.current, es, explicit, authoritative);
      EventRecorded(t, es[0], used, explicit, authoritative);
      var m := InsertEvent(t, es[0], used + 1, explicit, authoritative);
      if m.Some? {
        EventKeepsMidway(t, es[0], used, explicit, authoritative);
        EventsRecordedIff(m.value, es[1..], used + 1, explicit, authoritative);
        var u := InsertEvents(t, es, used + 1, explicit, authoritative);
        if u.Some? {
          EventsKeepMidway(m.value, es[1..], used + 1, explicit, authoritative, u.value);
          TagsOfAll(t, m.value, u.value, es, es[1..], used, used + 1, explicit, authoritative);
        }
      }
    }
  }

  lemma AllOfNone(current: map<Slot, Current>, es: seq<Event>, explicit: Option<Explicit>, authoritative: bool)
    requires es == []
    ensures AllRecordable(current, es, explicit, authoritative)
  {
  }

  lemma TagsOfAll(t: Tables, m: Tables, u: Tables, es: seq<Event>, rest: seq<Event>, used: nat, next: nat,
                  explicit: Option<Explicit>, authoritative: bool)
    requires es != [] && rest == es[1..] && next == used + 1 && Extends(m, u)
    requires m.current == CurrentAt(t.current, [es[0]], authoritative, 1)
    requires TaggedAt(m, t.current, [es[0]], used, explicit, authoritative, 0)
    requires forall i: nat | i < |rest| :: TaggedAt(u, m.current, rest, next, explicit, authoritative, i)
    ensures forall i: nat | i < |es| :: TaggedAt(u, t.current, es, used, explicit, authoritative, i)
  {
    RestRecordable(t.current, es, explicit, authoritative);
    hide BelongsTo;
    assert CurrentAt(t.current, es, authoritative, 0) == t.current == CurrentAt(t.current, [es[0]], authoritative, 0);
    forall i: nat | i < |es| ensures TaggedAt(u, t.current, es, used, explicit, authoritative, i) {
      if i > 0 {
        assert TaggedAt(u, m.current, rest, next, explicit, authoritative, i - 1);
        assert used + 1 + 1 + (i - 1) == used + 1 + i && es[1..][i - 1] == es[i];
        assert CurrentAt(t.current, es, authoritative, i - 1 + 1) == CurrentAt(m.current, es[1..], authoritative, i - 1);
      }
    }
  }

  /**
    A batch commits if and only if the run is active, its explicit instance is registered and every event can
    be recorded; then each event is observed under the instance that was current when its turn came.
   */
  lemma BatchCommitsIff(t: Tables, es: seq<Event>, explicit: Option<Explicit>, authoritative: bool)
    requires Inv(t)
    ensures var u := RecordBatch(t, es, explicit, authoritative);
      && (u.Some? <==>
            es == [] || (t.running && Registered(t, explicit) && AllRecordable(t.current, es, explicit, authoritative)))
      && (u.Some? ==>
            && u.value.current == CurrentAt(t.current, es, authoritative, |es|)
            && forall i: nat | i < |es| :: TaggedAt(u.value, t.current, es, t.lastSeq, explicit, authoritative, i))
  {
    hide InsertEvents, SequencesTaken, Distinct, RowsLinked, AllRecordable, Registered;
    var reserved := t.(lastSeq := t.lastSeq + |es|);
    MidwayReadsUsed(t, reserved, t.lastSeq);
    EventsRecordedIff(reserved, es, t.lastSeq, explicit, authoritative);
  }

  /** Some reading of the batch names this instance. */
  predicate Named(es: seq<Event>, slot: Slot, id: Instance) {
    exists e | e in es :: e.ActiveSidechains? && Listed(e.list, slot, id)
  }

  /** A batch registers exactly the instances its readings name, authoritative or not. */
  lemma {:induction false} BatchRegistersNamed(t: Tables, es: seq<Event>, first: nat, explicit: Option<Explicit>,
                                               authoritative: bool, slot: Slot, id: Instance)
    requires InsertEvents(t, es, first, explicit, authoritative).Some?
    ensures (slot, id) in InsertEvents(t, es, first, explicit, authoritative).value.instances <==>
      (slot, id) in t.instances || Named(es, slot, id)
    decreases |es|
  {
    hide InsertEvent;
    if es != [] {
      InsertFirst(t, es, first, explicit, authoritative);
      EventRegistersNamed(t, es[0], first, explicit, authoritative, slot, id);
      var m := InsertEvent(t, es[0], first, explicit, authoritative).value;
      BatchRegistersNamed(m, es[1..], first + 1, explicit, authoritative, slot, id);
      assert es == [es[0]] + es[1..];
    }
  }

  lemma EventRegistersNamed(t: Tables, e: Event, first: nat, explicit: Option<Explicit>, authoritative: bool,
                            slot: Slot, id: Instance)
    requires InsertEvent(t, e, first, explicit, authoritative).Some?
    ensures (slot, id) in InsertEvent(t, e, first, explicit, authoritative).value.instances <==>
      (slot, id) in t.instances || (e.ActiveSidechains? && Listed(e.list, slot, id))
  {
    hide Refreshed, Tag;
    if e.ActiveSidechains? {
      assert (slot, id) in Registrations(e.list) <==> Listed(e.list, slot, id);
    }
  }

  // ---------------------------------------------------------------- nothing is recorded twice or left out

  /** The tip moves before the run is finished. */
  function TipMoves(steps: seq<Step>): nat {
    if steps == [] || steps[0].Finish? then 0 else (if steps[0].TipMove? then 1 else 0) + TipMoves(steps[1..])
  }

  /** The events of the batches that commit. */
  function EventsCommitted(t: Tables, steps: seq<Step>): nat
    decreases |steps|
  {
    if steps == [] then 0
    else
      (if steps[0].Batch? && RecordBatch(t, steps[0].es, steps[0].explicit, steps[0].authoritative).Some? then |steps[0].es| else 0)
      + EventsCommitted(Apply(t, steps[0]), steps[1..])
  }

  /** Every tip move of an active run and every event of a committed batch is one observation, with a sequence of its own. */
  lemma {:induction false} EverythingIsObservedOnce(t: Tables, steps: seq<Step>)
    requires Inv(t)
    ensures var u := Play(t, steps);
      && |u.tips| == |t.tips| + (if t.running then TipMoves(steps) else 0)
      && |u.observed| == |t.observed| + EventsCommitted(t, steps)
      && u.lastSeq == t.lastSeq + (if t.running then TipMoves(steps) else 0) + EventsCommitted(t, steps)
    decreases |steps|
  {
    hide RecordBatch;
    if steps != [] {
      SequencesAreExact(t, [steps[0]]);
      StepCounts(t, steps[0]);
      assert Play(t, [steps[0]]) == Play(Apply(t, steps[0]), [steps[0]][1..]) == Apply(t, steps[0]);
      EverythingIsObservedOnce(Apply(t, steps[0]), steps[1..]);
    }
  }

  lemma StepCounts(t: Tables, step: Step)
    requires Inv(t)
    ensures var u, events := Apply(t, step), EventsCommitted(t, [step]);
      && |u.tips| == |t.tips| + (if t.running && step.TipMove? then 1 else 0)
      && |u.observed| == |t.observed| + events
      && u.lastSeq == t.lastSeq + (if t.running && step.TipMove? then 1 else 0) + events
      && u.running == (t.running && !step.Finish?)
      && events == if step.Batch? && RecordBatch(t, step.es, step.explicit, step.authoritative).Some? then |step.es| else 0
  {
    hide RecordBatch;
    assert EventsCommitted(Apply(t, step), [step][1..]) == 0;
    match step {
      case Batch(es, explicit, authoritative) =>
        if RecordBatch(t, es, explicit, authoritative).Some? {
          BatchObservesEachEvent(t, es, explicit, authoritative, Apply(t, step));
        }
      case TipMove =>
        if t.running {
          assert t.lastSeq + 1 !in t.tips;
        }
      case Finish =>
    }
  }

  /** In every run the sequences of events and tip moves are exactly 1..last, disjoint and gapless. */
  lemma {:induction false} SequencesAreExact(t: Tables, steps: seq<Step>)
    requires Inv(t)
    ensures Inv(Play(t, steps))
    decreases |steps|
  {
    hide RecordBatch;
    if steps != [] {
      match steps[0] {
        case Batch(es, explicit, authoritative) =>
          if RecordBatch(t, es, explicit, authoritative).Some? {
            BatchObservesEachEvent(t, es, explicit, authoritative, Apply(t, steps[0]));
          }
        case TipMove =>
        case Finish =>
      }
      SequencesAreExact(Apply(t, steps[0]), steps[1..]);
    }
  }

  // ---------------------------------------------------------------- replays

  /** Batches whose tags do not depend on which instance is current. */
  predicate Pinned(es: seq<Event>, explicit: Option<Explicit>) {
    forall e | e in es :: e.SlotEvent? <==> explicit.Some?
  }

  predicate Insertable(e: Event, explicit: Option<Explicit>) {
    && (e.ActiveSidechains? ==> Acceptable(e.list))
    && (explicit.Some? ==> e.SlotEvent? && e.slot == explicit.value.slot)
    && (explicit.None? ==> !e.SlotEvent?)
  }

  function PinnedFact(e: Event, explicit: Option<Explicit>): Fact {
    Fact(SlotOf(e), if explicit.Some? then Some(explicit.value.id) else None, e.anchor, e.payload)
  }

  lemma {:induction false} PinnedEventsAreStored(t: Tables, es: seq<Event>, first: nat, explicit: Option<Explicit>, authoritative: bool)
    requires Pinned(es, explicit) && InsertEvents(t, es, first, explicit, authoritative).Some?
    ensures var u := InsertEvents(t, es, first, explicit, authoritative).value;
      && (forall f | f in t.facts :: f in u.facts) && t.instances <= u.instances
      && forall e | e in es :: Insertable(e, explicit) && PinnedFact(e, explicit) in u.facts
    decreases |es|
  {
    if es != [] {
      assert es == [es[0]] + es[1..];
      assert es[0] in es;
      var mid := InsertEvent(t, es[0], first, explicit, authoritative).value;
      assert PinnedFact(es[0], explicit) in mid.facts;
      PinnedEventsAreStored(mid, es[1..], first + 1, explicit, authoritative);
    }
  }

  lemma {:induction false} StoredEventsAddNothing(t: Tables, es: seq<Event>, first: nat, explicit: Option<Explicit>, authoritative: bool)
    requires forall e | e in es :: Insertable(e, explicit) && PinnedFact(e, explicit) in t.facts
    ensures InsertEvents(t, es, first, explicit, authoritative).Some?
    ensures InsertEvents(t, es, first, explicit, authoritative).value.facts == t.facts
    decreases |es|
  {
    if es != [] {
      assert es[0] in es;
      var mid := InsertEvent(t, es[0], first, explicit, authoritative).value;
      StoredEventsAddNothing(mid, es[1..], first + 1, explicit, authoritative);
    }
  }

  /**
    Replaying a global or explicit-instance batch at any later moment of an active run commits, adds
    no fact, and adds exactly one observation per event.
   */
  lemma ReplayAddsNoFacts(t: Tables, u: Tables, later: Tables, es: seq<Event>, explicit: Option<Explicit>,
                          authoritative: bool, again: bool)
    requires Pinned(es, explicit) && RecordBatch(t, es, explicit, authoritative) == Some(u)
    requires (forall f | f in u.facts :: f in later.facts) && u.instances <= later.instances
    requires Inv(later) && later.running
    ensures RecordBatch(later, es, explicit, again).Some?
    ensures RecordBatch(later, es, explicit, again).value.facts == later.facts
    ensures |RecordBatch(later, es, explicit, again).value.observed| == |later.observed| + |es|
  {
    ReplayCommits(t, u, later, es, explicit, authoritative, again);
    hide RecordBatch;
    BatchObservesEachEvent(later, es, explicit, again, RecordBatch(later, es, explicit, again).value);
  }

  lemma ReplayCommits(t: Tables, u: Tables, later: Tables, es: seq<Event>, explicit: Option<Explicit>,
                      authoritative: bool, again: bool)
    requires Pinned(es, explicit) && RecordBatch(t, es, explicit, authoritative) == Some(u)
    requires (forall f | f in u.facts :: f in later.facts) && u.instances <= later.instances && later.running
    ensures RecordBatch(later, es, explicit, again).Some?
    ensures RecordBatch(later, es, explicit, again).value.facts == later.facts
  {
    hide InsertEvents;
    if es != [] {
      PinnedEventsAreStored(t.(lastSeq := t.lastSeq + |es|), es, t.lastSeq + 1, explicit, authoritative);
      StoredEventsAddNothing(later.(lastSeq := later.lastSeq + |es|), es, later.lastSeq + 1, explicit, again);
    }
  }
}
