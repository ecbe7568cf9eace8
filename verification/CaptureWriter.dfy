/**
  The batch transaction as the program runs it: event by event, resolving slot events through an
  instance cache that lives as long as the batch.
 */
module CaptureWriter {
  import opened Wrappers
  import opened Capture

  /** Every cached answer is what the table holds. */
  ghost predicate CacheTrue(cache: map<Slot, Instance>, current: map<Slot, Current>) {
    forall slot | slot in cache :: slot in current && current[slot].id == cache[slot]
  }

  /** An authoritative reading names each slot once. */
  predicate Clean(e: Event, authoritative: bool) {
    e.ActiveSidechains? && authoritative ==> DistinctSlots(e.list)
  }

  predicate CleanBatch(es: seq<Event>, authoritative: bool) {
    forall e | e in es :: Clean(e, authoritative)
  }

  // ---------------------------------------------------------------- the batch as the program runs it

  /** The tag of an event: explicit, cached, or looked up. */
  function CachedTag(current: map<Slot, Current>, cache: map<Slot, Instance>, e: Event, explicit: Option<Explicit>)
    : Option<Option<Instance>>
  {
    if e.SlotEvent? && explicit.None? && e.slot in cache then Some(Some(cache[e.slot])) else Tag(current, e, explicit)
  }

  /** A looked-up instance is cached. */
  function Learned(current: map<Slot, Current>, cache: map<Slot, Instance>, e: Event, explicit: Option<Explicit>)
    : map<Slot, Instance>
  {
    if e.SlotEvent? && explicit.None? && e.slot !in cache && e.slot in current then cache[e.slot := current[e.slot].id]
    else cache
  }

  function Recached(e: Event, authoritative: bool, cache: map<Slot, Instance>): map<Slot, Instance> {
    if e.ActiveSidechains? && authoritative then CacheOf(e.list) else cache
  }

  datatype Written = Written(tables: Tables, cache: map<Slot, Instance>)

  function InsertCached(w: Written, e: Event, seqNo: nat, explicit: Option<Explicit>, authoritative: bool): Option<Written> {
    match UpdateInstances(w.tables, e, authoritative)
    case None => None
    case Some(u) =>
      var cache := Recached(e, authoritative, w.cache);
      match CachedTag(u.current, cache, e, explicit)
      case None => None
      case Some(instance) =>
        Some(Written(Observe(u, Fact(SlotOf(e), instance, e.anchor, e.payload), seqNo),
                     Learned(u.current, cache, e, explicit)))
  }

  function InsertAllCached(w: Written, es: seq<Event>, first: nat, explicit: Option<Explicit>, authoritative: bool)
    : Option<Written>
    decreases |es|
  {
    if es == [] then Some(w)
    else
      match InsertCached(w, es[0], first, explicit, authoritative)
      case None => None
      case Some(v) => InsertAllCached(v, es[1..], first + 1, explicit, authoritative)
  }

  function RecordCached(t: Tables, es: seq<Event>, explicit: Option<Explicit>, authoritative: bool): Option<Tables> {
    if es == [] then Some(t)
    else if !Registered(t, explicit) || !t.running then None
    else
      match InsertAllCached(Written(t.(lastSeq := t.lastSeq + |es|), map[]), es, t.lastSeq + 1, explicit, authoritative)
      case None => None
      case Some(w) => Some(w.tables)
  }

  // ---------------------------------------------------------------- the cache refines the table

  /** A clean reading leaves a cache that answers as the table it leaves. */
  lemma UpdateKeepsCacheTrue(t: Tables, e: Event, authoritative: bool, cache: map<Slot, Instance>)
    requires UpdateInstances(t, e, authoritative).Some? && CacheTrue(cache, t.current) && Clean(e, authoritative)
    ensures CacheTrue(Recached(e, authoritative, cache), UpdateInstances(t, e, authoritative).value.current)
  {
    if e.ActiveSidechains? && authoritative {
      DistinctReadingIsTheTable(t.current, e.list, e.observedAt);
      var table := Refreshed(t.current, e.list, e.observedAt);
      forall slot | slot in CacheOf(e.list) ensures slot in table && table[slot].id == CacheOf(e.list)[slot] {
        assert slot in Ids(table);
      }
    }
  }

  lemma CachedInsertIsTable(w: Written, e: Event, seqNo: nat, explicit: Option<Explicit>, authoritative: bool)
    requires CacheTrue(w.cache, w.tables.current) && Clean(e, authoritative)
    ensures var v := InsertCached(w, e, seqNo, explicit, authoritative);
      && InsertEvent(w.tables, e, seqNo, explicit, authoritative) == (if v.Some? then Some(v.value.tables) else None)
      && (v.Some? ==> CacheTrue(v.value.cache, v.value.tables.current))
  {
    hide UpdateInstances, Recached, Observe;
    var u := UpdateInstances(w.tables, e, authoritative);
    if u.Some? {
      UpdateKeepsCacheTrue(w.tables, e, authoritative, w.cache);
      forall f { ObserveKeepsCurrent(u.value, f, seqNo); }
    }
  }

  /** A batch whose authoritative readings name each slot once is tagged as if every tag were read from the table. */
  lemma {:induction false} CachedBatchIsTable(w: Written, es: seq<Event>, first: nat, explicit: Option<Explicit>,
                                              authoritative: bool)
    requires CacheTrue(w.cache, w.tables.current) && CleanBatch(es, authoritative)
    ensures var v := InsertAllCached(w, es, first, explicit, authoritative);
      InsertEvents(w.tables, es, first, explicit, authoritative) == if v.Some? then Some(v.value.tables) else None
    decreases |es|
  {
    hide InsertCached, InsertEvent, CacheTrue, Clean;
    if es != [] {
      assert es[0] in es;
      CachedInsertIsTable(w, es[0], first, explicit, authoritative);
      InsertFirst(w.tables, es, first, explicit, authoritative);
      var v := InsertCached(w, es[0], first, explicit, authoritative);
      if v.Some? {
        CachedBatchIsTable(v.value, es[1..], first + 1, explicit, authoritative);
      }
    }
  }

  /** The batch transaction with its cache equals the transaction that reads every tag from the table. */
  lemma RecordCachedIsTable(t: Tables, es: seq<Event>, explicit: Option<Explicit>, authoritative: bool)
    requires CleanBatch(es, authoritative)
    ensures RecordCached(t, es, explicit, authoritative) == Capture.RecordBatch(t, es, explicit, authoritative)
  {
    hide InsertAllCached, InsertEvents, CleanBatch;
    CachedBatchIsTable(Written(t.(lastSeq := t.lastSeq + |es|), map[]), es, t.lastSeq + 1, explicit, authoritative);
  }

  // ---------------------------------------------------------------- sequences do not depend on the cache

  lemma CachedInsertKeepsMidway(w: Written, e: Event, used: nat, explicit: Option<Explicit>, authoritative: bool)
    requires Midway(w.tables, used) && InsertCached(w, e, used + 1, explicit, authoritative).Some?
    ensures var v := InsertCached(w, e, used + 1, explicit, authoritative).value;
      Midway(v.tables, used + 1) && Extends(w.tables, v.tables)
  {
    hide UpdateInstances, Observe, Midway;
    var u := UpdateInstances(w.tables, e, authoritative).value;
    UpdateKeepsMidway(w.tables, e, used, authoritative);
    var instance := CachedTag(u.current, Recached(e, authoritative, w.cache), e, explicit).value;
    ObserveKeepsMidway(u, Fact(SlotOf(e), instance, e.anchor, e.payload), used);
  }

  lemma UpdateKeepsFacts(t: Tables, e: Event, authoritative: bool)
    requires UpdateInstances(t, e, authoritative).Some?
    ensures UpdateInstances(t, e, authoritative).value.facts == t.facts
  {
  }

  lemma InsertFirstCached(w: Written, es: seq<Event>, first: nat, explicit: Option<Explicit>, authoritative: bool)
    requires es != []
    ensures var v := InsertCached(w, es[0], first, explicit, authoritative);
      InsertAllCached(w, es, first, explicit, authoritative)
      == if v.None? then None else InsertAllCached(v.value, es[1..], first + 1, explicit, authoritative)
  {
  }

  lemma InsertNoneCached(w: Written, first: nat, explicit: Option<Explicit>, authoritative: bool)
    ensures InsertAllCached(w, [], first, explicit, authoritative) == Some(w)
  {
  }

  /** The cache takes every entry of a reading in turn. */
  method CacheAll(list: seq<Active>) returns (cached: map<Slot, Instance>)
    ensures cached == CacheOf(list)
  {
    cached := map[];
    for i := 0 to |list|
      invariant cached == CacheOf(list[..i])
    {
      assert list[..i + 1][..i] == list[..i];
      cached := cached[list[i].slot := list[i].id];
    }
    assert list[..|list|] == list;
  }

  class Writer {
    var facts: seq<Fact>
    var observed: map<nat, nat>
    var tips: set<nat>
    var lastSeq: nat
    var running: bool
    var instances: set<(Slot, Instance)>
    var current: map<Slot, Current>

    function State(): Tables
      reads this
    {
      Tables(facts, observed, tips, lastSeq, running, instances, current)
    }

    constructor ()
      ensures State() == Tables([], map[], {}, 0, true, {}, map[]) && Inv(State())
    {
      facts, observed, tips, lastSeq, running, instances, current := [], map[], {}, 0, true, {}, map[];
    }

    /** Check and register every instance of a reading. */
    method RegisterAll(list: seq<Active>) returns (ok: bool)
      modifies this`instances
      ensures ok <==> Acceptable(list)
      ensures ok ==> instances == old(instances) + Registrations(list)
    {
      for i := 0 to |list|
        invariant forall k | 0 <= k < i :: list[k].slot <= MAX_SLOT && list[k].genuine
        invariant instances == old(instances) + Registrations(list[..i])
      {
        if list[i].slot > MAX_SLOT || !list[i].genuine {
          assert list[i] in list;
          return false;
        }
        instances := instances + {(list[i].slot, list[i].id)};
        assert list[..i + 1] == list[..i] + [list[i]];
      }
      assert list[..|list|] == list;
      return true;
    }

    /** Retire the rows the reading does not repeat, then insert the missing slots. */
    method RefreshCurrent(list: seq<Active>, at: nat)
      modifies this`current
      ensures current == Refreshed(old(current), list, at)
    {
      current := Retire(current, list);
      assert list[0..] == list;
      for i := 0 to |list|
        invariant Fill(current, list[i..], at) == Refreshed(old(current), list, at)
      {
        assert list[i..][1..] == list[i + 1..];
        if list[i].slot !in current {
          current := current[list[i].slot := Current(list[i].id, at)];
        }
      }
    }

    /** `update_sidechain_instances`: register, then retire, fill and re-cache. */
    method UpdateSidechainInstances(e: Event, authoritative: bool, cache: map<Slot, Instance>)
      returns (ok: bool, cached: map<Slot, Instance>)
      modifies this`instances, this`current
      ensures ok <==> UpdateInstances(old(State()), e, authoritative).Some?
      ensures ok ==> Some(State()) == UpdateInstances(old(State()), e, authoritative)
      ensures ok ==> cached == Recached(e, authoritative, cache)
    {
      hide Refreshed, Registrations, Acceptable, CacheOf;
      cached := cache;
      if !e.ActiveSidechains? {
        return true, cache;
      }
      ok := RegisterAll(e.list);
      if ok && authoritative {
        RefreshCurrent(e.list, e.observedAt);
        cached := CacheAll(e.list);
      }
    }

    /** The instance a slot event belongs to: explicit, cached, or looked up and then cached. */
    method Resolve(e: Event, explicit: Option<Explicit>, cache: map<Slot, Instance>)
      returns (tag: Option<Option<Instance>>, cached: map<Slot, Instance>)
      ensures tag == CachedTag(current, cache, e, explicit)
      ensures tag.Some? ==> cached == Learned(current, cache, e, explicit)
    {
      cached := cache;
      if !e.SlotEvent? {
        tag := if explicit.Some? then None else Some(None);
      } else if explicit.Some? {
        tag := if explicit.value.slot == e.slot then Some(Some(explicit.value.id)) else None;
      } else if e.slot in cache {
        tag := Some(Some(cache[e.slot]));
      } else if e.slot in current {
        cached := cache[e.slot := current[e.slot].id];
        tag := Some(Some(current[e.slot].id));
      } else {
        tag := None;
      }
    }

    /** `insert` for one event of the batch. */
    method InsertOne(e: Event, seqNo: nat, explicit: Option<Explicit>, authoritative: bool, cache: map<Slot, Instance>)
      returns (ok: bool, isNew: bool, cached: map<Slot, Instance>)
      modifies this`instances, this`current, this`facts, this`observed
      ensures ok <==> InsertCached(Written(old(State()), cache), e, seqNo, explicit, authoritative).Some?
      ensures ok ==>
        Some(Written(State(), cached)) == InsertCached(Written(old(State()), cache), e, seqNo, explicit, authoritative)
      ensures ok ==> |facts| == |old(facts)| + if isNew then 1 else 0
    {
      hide UpdateInstances, CachedTag, Learned;
      isNew := false;
      ghost var before := State();
      ok, cached := UpdateSidechainInstances(e, authoritative, cache);
      if !ok {
        return;
      }
      UpdateKeepsFacts(before, e, authoritative);
      ghost var updated := State();
      var tag;
      tag, cached := Resolve(e, explicit, cached);
      if tag.None? {
        ok := false;
        return;
      }
      var f := Fact(SlotOf(e), tag.value, e.anchor, e.payload);
      isNew := f !in facts;
      if isNew {
        facts := facts + [f];
      }
      observed := observed[seqNo := IndexOf(facts, f)];
      assert State() == Observe(updated, f, seqNo);
    }

    /** The events of a batch in order, through one cache. */
    method InsertBatch(es: seq<Event>, used: nat, explicit: Option<Explicit>, authoritative: bool)
      returns (ok: bool, count: nat)
      requires Midway(State(), used)
      modifies this`instances, this`current, this`facts, this`observed
      ensures ok ==> Midway(State(), used + |es|) && |facts| == |old(facts)| + count
      ensures var w := InsertAllCached(Written(old(State()), map[]), es, used + 1, explicit, authoritative);
        (ok <==> w.Some?) && (ok ==> State() == w.value.tables)
    {
      hide InsertCached, InsertAllCached, Midway;
      ok, count := true, 0;
      var cache: map<Slot, Instance> := map[];
      ghost var goal := InsertAllCached(Written(State(), cache), es, used + 1, explicit, authoritative);
      assert es[0..] == es;
      for i := 0 to |es|
        invariant ok && Midway(State(), used + i) && |facts| == |old(facts)| + count
        invariant InsertAllCached(Written(State(), cache), es[i..], used + i + 1, explicit, authoritative) == goal
      {
        assert es[i..][0] == es[i] && es[i..][1..] == es[i + 1..];
        ghost var w := Written(State(), cache);
        InsertFirstCached(w, es[i..], used + i + 1, explicit, authoritative);
        var isNew;
        ok, isNew, cache := InsertOne(es[i], used + i + 1, explicit, authoritative, cache);
        if !ok {
          return;
        }
        CachedInsertKeepsMidway(w, es[i], used + i, explicit, authoritative);
        count := count + if isNew then 1 else 0;
      }
      assert es[|es|..] == [];
      InsertNoneCached(Written(State(), cache), used + |es| + 1, explicit, authoritative);
    }

    /** `record_batch`: every event or none. */
    method RecordBatch(es: seq<Event>, explicit: Option<Explicit>, authoritative: bool) returns (inserted: Option<nat>)
      requires Inv(State())
      modifies this
      ensures Inv(State())
      ensures inserted.Some? <==> RecordCached(old(State()), es, explicit, authoritative).Some?
      ensures State() == RecordCached(old(State()), es, explicit, authoritative).Or(old(State()))
      ensures inserted.Some? ==> |facts| == |old(facts)| + inserted.value
      ensures CleanBatch(es, authoritative) ==>
        State() == Capture.RecordBatch(old(State()), es, explicit, authoritative).Or(old(State()))
    {
      hide InsertAllCached, CleanBatch;
      if CleanBatch(es, authoritative) {
        RecordCachedIsTable(State(), es, explicit, authoritative);
      }
      hide Capture.RecordBatch;
      if es == [] {
        return Some(0);
      }
      if !Registered(State(), explicit) || !running {
        return None;
      }
      var savedFacts, savedObserved, savedSeq := facts, observed, lastSeq;
      var savedInstances, savedCurrent := instances, current;
      lastSeq := lastSeq + |es|;
      var ok, count := InsertBatch(es, savedSeq, explicit, authoritative);
      if ok {
        inserted := Some(count);
      } else {
        facts, observed, lastSeq, instances, current :=
          savedFacts, savedObserved, savedSeq, savedInstances, savedCurrent;
        inserted := None;
      }
    }

    method RecordTip() returns (ok: bool)
      requires Inv(State())
      modifies this`tips, this`lastSeq
      ensures Inv(State()) && State() == Capture.RecordTip(old(State())).Or(old(State()))
      ensures ok <==> old(running)
      ensures ok ==> lastSeq == old(lastSeq) + 1 && tips == old(tips) + {old(lastSeq) + 1} && old(lastSeq) + 1 !in old(tips)
      ensures !ok ==> State() == old(State())
    {
      ok := running;
      if ok {
        tips := tips + {lastSeq + 1};
        lastSeq := lastSeq + 1;
      }
    }
  }
}
