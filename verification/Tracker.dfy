/**
  The delta encoder of mutable state: every reading is published with the payloads that differ from
  the last tip-matched reading.
 */
module Tracker {
  import opened Wrappers

  datatype Payload =
    | Proposals(value: nat)
    | ActiveSidechains(value: nat)
    | Ctip(slot: nat, value: nat)
    | Bundles(slot: nat, value: nat)
    | Unexpected(value: nat)

  datatype Key = ProposalsKey | ActiveKey | CtipKey(slot: nat) | BundlesKey(slot: nat)

  datatype Consistency = TipMatched | Changed | Unknown

  datatype Reading = Reading(payloads: seq<Payload>, consistency: Consistency)

  function KeyOf(p: Payload): Option<Key> {
    match p
    case Proposals(_) => Some(ProposalsKey)
    case ActiveSidechains(_) => Some(ActiveKey)
    case Ctip(slot, _) => Some(CtipKey(slot))
    case Bundles(slot, _) => Some(BundlesKey(slot))
    case Unexpected(_) => None
  }

  /** Two payloads are about the same piece of state: the same kind and, where there is one, the same slot. */
  predicate SameSubject(p: Payload, q: Payload) {
    || (p.Proposals? && q.Proposals?) || (p.ActiveSidechains? && q.ActiveSidechains?)
    || (p.Ctip? && q.Ctip? && p.slot == q.slot) || (p.Bundles? && q.Bundles? && p.slot == q.slot)
  }

  lemma KeysAgreeIff(p: Payload, q: Payload)
    ensures KeyOf(p).None? <==> p.Unexpected?
    ensures !p.Unexpected? && !q.Unexpected? ==> (KeyOf(p) == KeyOf(q) <==> SameSubject(p, q))
  {
  }

  predicate Keyed(payloads: seq<Payload>) {
    forall p | p in payloads :: KeyOf(p).Some?
  }

  /** The first payload under a key; payloads without a key are passed over. */
  function Find(payloads: seq<Payload>, key: Key): (found: Option<Payload>)
    ensures found.Some? ==> found.value in payloads && KeyOf(found.value) == Some(key)
    ensures found.None? ==> forall p | p in payloads :: KeyOf(p) != Some(key)
  {
    if payloads == [] then None
    else
      assert payloads == [payloads[0]] + payloads[1..];
      if KeyOf(payloads[0]) == Some(key) then Some(payloads[0]) else Find(payloads[1..], key)
  }

  predicate Differs(base: seq<Payload>, p: Payload) {
    KeyOf(p).Some? && Find(base, KeyOf(p).value) != Some(p)
  }

  /** The payloads of `current` that `base` does not answer with, in their order. */
  function Diff(base: seq<Payload>, current: seq<Payload>): (changed: seq<Payload>)
    ensures forall p :: p in changed <==> p in current && Differs(base, p)
  {
    if current == [] then []
    else
      var init, last := current[..|current| - 1], current[|current| - 1];
      assert current == init + [last];
      Diff(base, init) + if Differs(base, last) then [last] else []
  }

  /** `part` is found in `whole` in order, matched from the end. */
  predicate Subsequence(part: seq<Payload>, whole: seq<Payload>) {
    if part == [] then true
    else if whole == [] then false
    else if part[|part| - 1] == whole[|whole| - 1] then Subsequence(part[..|part| - 1], whole[..|whole| - 1])
    else Subsequence(part, whole[..|whole| - 1])
  }

  lemma SubsequenceGrows(part: seq<Payload>, whole: seq<Payload>, p: Payload)
    requires Subsequence(part, whole)
    ensures Subsequence(part + [p], whole + [p])
    ensures p !in part ==> Subsequence(part, whole + [p])
  {
    assert (whole + [p])[..|whole|] == whole && (part + [p])[..|part|] == part;
  }

  lemma OneMoreChange(base: seq<Payload>, init: seq<Payload>, last: Payload)
    ensures Diff(base, init + [last]) == Diff(base, init) + if Differs(base, last) then [last] else []
  {
    assert (init + [last])[..|init|] == init;
  }

  /** The changes keep the order of the reading and repeat nothing. */
  lemma {:induction false} ChangesKeepOrder(base: seq<Payload>, current: seq<Payload>)
    ensures Subsequence(Diff(base, current), current)
  {
    if current == [] {
      assert Diff(base, current) == [];
    } else {
      var init, last := current[..|current| - 1], current[|current| - 1];
      assert current == init + [last];
      ChangesKeepOrder(base, init);
      OneMoreChange(base, init, last);
      SubsequenceGrows(Diff(base, init), init, last);
      assert Diff(base, init) + [] == Diff(base, init);
      hide Diff, Differs, Subsequence;
    }
  }

  /** Each payload is reported as often as it was read, if it differs. */
  lemma {:induction false} ChangesAreCounted(base: seq<Payload>, current: seq<Payload>, p: Payload)
    ensures multiset(Diff(base, current))[p] == if Differs(base, p) then multiset(current)[p] else 0
  {
    if current == [] {
      assert Diff(base, current) == [];
    } else {
      var init, last := current[..|current| - 1], current[|current| - 1];
      assert current == init + [last];
      ChangesAreCounted(base, init, p);
      OneMoreChange(base, init, last);
      hide Diff, Differs;
    }
  }

  /** Each payload of a reading is about something else. */
  predicate OneEach(payloads: seq<Payload>) {
    && (forall p | p in payloads :: !p.Unexpected?)
    && forall i, j | 0 <= i < j < |payloads| :: !SameSubject(payloads[i], payloads[j])
  }

  lemma {:induction false} FoundAtHome(payloads: seq<Payload>, i: nat)
    requires OneEach(payloads) && i < |payloads|
    ensures KeyOf(payloads[i]).Some? && Find(payloads, KeyOf(payloads[i]).value) == Some(payloads[i])
  {
    KeysAgreeIff(payloads[0], payloads[i]);
    if i > 0 {
      assert payloads[i] == payloads[1..][i - 1];
      FoundAtHome(payloads[1..], i - 1);
    }
  }

  /** Against a reading that has one payload for each subject, exactly the payloads that it lacks are reported. */
  lemma ChangesAreWhatBaseLacks(base: seq<Payload>, current: seq<Payload>, p: Payload)
    requires OneEach(base) && p in current && !p.Unexpected?
    ensures p in Diff(base, current) <==> p !in base
  {
    KeysAgreeIff(p, p);
    if p in base {
      var i :| 0 <= i < |base| && base[i] == p;
      FoundAtHome(base, i);
    }
  }

  /** An unchanged reading has no changes. */
  lemma UnchangedReadingIsQuiet(payloads: seq<Payload>)
    requires OneEach(payloads)
    ensures Diff(payloads, payloads) == []
  {
    var d := Diff(payloads, payloads);
    if d != [] {
      assert d[0] in d;
      ChangesAreWhatBaseLacks(payloads, payloads, d[0]);
    }
  }

  // ---------------------------------------------------------------- decoding

  function Keys(payloads: seq<Payload>): seq<Key>
    requires Keyed(payloads)
  {
    seq(|payloads|, i requires 0 <= i < |payloads| => KeyOf(payloads[i]).value)
  }

  /** Patch `base` with `changed`, restricted to the keys of the reading. */
  function Patch(base: seq<Payload>, changed: seq<Payload>, keys: seq<Key>): seq<Option<Payload>> {
    seq(|keys|, i requires 0 <= i < |keys| =>
      if Find(changed, keys[i]).Some? then Find(changed, keys[i]) else Find(base, keys[i]))
  }

  function All(payloads: seq<Payload>): seq<Option<Payload>> {
    seq(|payloads|, i requires 0 <= i < |payloads| => Some(payloads[i]))
  }

  /** No key stands for two different payloads. */
  predicate Coherent(payloads: seq<Payload>) {
    forall p, q | p in payloads && q in payloads && KeyOf(p) == KeyOf(q) :: p == q
  }

  lemma PatchedAt(base: seq<Payload>, current: seq<Payload>, i: nat)
    requires Keyed(current) && Coherent(current) && i < |current|
    ensures Patch(base, Diff(base, current), Keys(current))[i] == Some(current[i])
  {
    var p := current[i];
    var key := KeyOf(p).value;
    assert p in current && Keys(current)[i] == key;
    var found := Find(Diff(base, current), key);
    assert found.None? ==> p !in Diff(base, current);
  }

  /** Patching the baseline with the changes rebuilds the reading, exactly when the reading is coherent. */
  lemma PatchRebuildsIff(base: seq<Payload>, current: seq<Payload>)
    requires Keyed(current)
    ensures Patch(base, Diff(base, current), Keys(current)) == All(current) <==> Coherent(current)
  {
    var patched := Patch(base, Diff(base, current), Keys(current));
    if Coherent(current) {
      forall i | 0 <= i < |current| ensures patched[i] == All(current)[i] {
        PatchedAt(base, current, i);
      }
    } else {
      var p, q :| p in current && q in current && KeyOf(p) == KeyOf(q) && p != q;
      var i :| 0 <= i < |current| && current[i] == p;
      var j :| 0 <= j < |current| && current[j] == q;
      assert Keys(current)[i] == Keys(current)[j];
      assert patched[i] == patched[j];
      assert All(current)[i] == Some(p) && All(current)[j] == Some(q);
    }
  }

  // ---------------------------------------------------------------- runs of readings

  /** The last usable tip-matched reading, or the seed. */
  function Baseline(seed: seq<Payload>, readings: seq<Reading>): seq<Payload> {
    if readings == [] then seed
    else
      var last := readings[|readings| - 1];
      if last.consistency.TipMatched? && Keyed(last.payloads) then last.payloads
      else Baseline(seed, readings[..|readings| - 1])
  }

  /** What a consumer holds that starts from the seed and applies only the published changes. */
  function Follow(seed: seq<Payload>, readings: seq<Reading>): seq<Option<Payload>> {
    if readings == [] then All(seed)
    else
      var init, last := readings[..|readings| - 1], readings[|readings| - 1];
      if last.consistency.TipMatched? && Keyed(last.payloads) then
        PatchHeld(Follow(seed, init), Diff(Baseline(seed, init), last.payloads), Keys(last.payloads))
      else Follow(seed, init)
  }

  function Held(held: seq<Option<Payload>>): seq<Payload> {
    if held == [] then []
    else (if held[0].Some? then [held[0].value] else []) + Held(held[1..])
  }

  function PatchHeld(held: seq<Option<Payload>>, changed: seq<Payload>, keys: seq<Key>): seq<Option<Payload>> {
    Patch(Held(held), changed, keys)
  }

  lemma {:induction false} HeldAll(payloads: seq<Payload>)
    ensures Held(All(payloads)) == payloads
  {
    if payloads != [] {
      assert All(payloads)[1..] == All(payloads[1..]);
      HeldAll(payloads[1..]);
    }
  }

  /**
    A consumer that only ever sees the changes of tip-matched readings holds the last such reading,
    however many readings taken while the tip moved come between two of them.
   */
  lemma {:induction false} FollowerHoldsBaseline(seed: seq<Payload>, readings: seq<Reading>)
    requires forall r | r in readings && r.consistency.TipMatched? :: Coherent(r.payloads)
    ensures Follow(seed, readings) == All(Baseline(seed, readings))
  {
    if readings != [] {
      var init, last := readings[..|readings| - 1], readings[|readings| - 1];
      assert last in readings;
      FollowerHoldsBaseline(seed, init);
      HeldAll(Baseline(seed, init));
      if last.consistency.TipMatched? && Keyed(last.payloads) {
        PatchRebuildsIff(Baseline(seed, init), last.payloads);
      }
    }
  }

  /** Readings between two tip-matched ones do not move the baseline. */
  lemma {:induction false} UnmatchedReadingsKeepBaseline(seed: seq<Payload>, before: seq<Reading>, between: seq<Reading>)
    requires forall r | r in between :: !r.consistency.TipMatched?
    ensures Baseline(seed, before + between) == Baseline(seed, before)
  {
    if between == [] {
      assert before + between == before;
    } else {
      var all := before + between;
      assert all[|all| - 1] == between[|between| - 1] && between[|between| - 1] in between;
      assert all[..|all| - 1] == before + between[..|between| - 1];
      UnmatchedReadingsKeepBaseline(seed, before, between[..|between| - 1]);
    }
  }

  /** No difference between consecutive tip-matched readings is lost. */
  lemma ChangesBetweenMatchedReadings(seed: seq<Payload>, before: seq<Reading>, a: Reading, between: seq<Reading>, p: Payload)
    requires a.consistency.TipMatched? && Keyed(a.payloads)
    requires forall r | r in between :: !r.consistency.TipMatched?
    ensures Baseline(seed, before + [a] + between) == a.payloads
    ensures forall b: Reading | p in b.payloads && KeyOf(p).Some? ::
      p in Diff(Baseline(seed, before + [a] + between), b.payloads) <==> Find(a.payloads, KeyOf(p).value) != Some(p)
  {
    UnmatchedReadingsKeepBaseline(seed, before + [a], between);
  }

  // ---------------------------------------------------------------- the tracker

  class Tracker {
    var last: seq<Payload>
    var lastConsistency: Consistency

    constructor (published: seq<Payload>, consistency: Consistency)
      ensures last == published && lastConsistency == consistency
    {
      last, lastConsistency := published, consistency;
    }

    function NeedsRetry(): (retry: bool)
      reads this
    {
      lastConsistency == Changed
    }

    /** The changed payloads, recorded as published; `None` on an unexpected payload. */
    method TakeChanged(current: seq<Payload>) returns (changed: Option<seq<Payload>>)
      modifies this`last
      ensures changed == if Keyed(current) then Some(Diff(old(last), current)) else None
      ensures last == if Keyed(current) then current else old(last)
    {
      var out := [];
      for i := 0 to |current|
        invariant Keyed(current[..i]) && out == Diff(last, current[..i]) && last == old(last)
      {
        assert current[..i + 1][..i] == current[..i];
        var key := KeyOf(current[i]);
        if key.None? {
          assert current[i] in current;
          return None;
        }
        if Find(last, key.value) != Some(current[i]) {
          out := out + [current[i]];
        }
      }
      assert current[..|current|] == current;
      last := current;
      return Some(out);
    }

    /** Publish a reading; only a tip-matched one becomes the baseline. */
    method TakeObservation(current: seq<Payload>, consistency: Consistency, ghost seed: seq<Payload>, ghost past: seq<Reading>)
      returns (changed: Option<seq<Payload>>)
      requires last == Baseline(seed, past)
      modifies this
      ensures last == Baseline(seed, past + [Reading(current, consistency)]) && lastConsistency == consistency
      ensures changed == if Keyed(current) then Some(Diff(Baseline(seed, past), current)) else None
      ensures NeedsRetry() <==> consistency.Changed?
    {
      lastConsistency := consistency;
      if consistency == TipMatched {
        changed := TakeChanged(current);
      } else {
        var previous := last;
        changed := TakeChanged(current);
        if changed.Some? {
          last := previous;
        }
      }
      ghost var all := past + [Reading(current, consistency)];
      assert all[..|all| - 1] == past;
    }
  }
}
