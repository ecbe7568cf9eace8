/**
  Samples of the live auction: the requests of one response, validated, unique by slot and
  transaction, and put into one canonical order.
 */
module BmmRequests {
  import opened Wrappers

  /** A request as it arrives; `None` is a hash that does not have its 32 bytes. */
  datatype Raw = Raw(slot: nat, txid: Option<nat>, critical: Option<nat>, bid: nat)

  /** Hashes compare byte by byte, which for equal lengths is the order of the integers they spell. */
  datatype Request = Request(slot: nat, txid: nat, critical: nat, bid: nat)

  const U8_MAX: nat := 255

  predicate Valid(r: Raw) {
    r.slot <= U8_MAX && r.txid.Some? && r.critical.Some?
  }

  function Parsed(r: Raw): Request
    requires Valid(r)
  {
    Request(r.slot, r.txid.value, r.critical.value, r.bid)
  }

  predicate AllValid(raws: seq<Raw>) {
    forall r | r in raws :: Valid(r)
  }

  function AllParsed(raws: seq<Raw>): (rs: seq<Request>)
    requires AllValid(raws)
    ensures |rs| == |raws| && forall i | 0 <= i < |raws| :: rs[i] == Parsed(raws[i])
  {
    if raws == [] then [] else
      assert raws == raws[..|raws| - 1] + [raws[|raws| - 1]];
      AllParsed(raws[..|raws| - 1]) + [Parsed(raws[|raws| - 1])]
  }

  predicate SameIdentity(a: Request, b: Request) {
    a.slot == b.slot && a.txid == b.txid
  }

  predicate Unique(rs: seq<Request>) {
    forall i, j | 0 <= i < j < |rs| :: !SameIdentity(rs[i], rs[j])
  }

  /** By slot, then the higher bid, then the transaction. */
  predicate Precedes(a: Request, b: Request) {
    || a.slot < b.slot
    || (a.slot == b.slot && a.bid > b.bid)
    || (a.slot == b.slot && a.bid == b.bid && a.txid < b.txid)
  }

  predicate Ordered(rs: seq<Request>) {
    forall i, j | 0 <= i < j < |rs| :: Precedes(rs[i], rs[j])
  }

  // ---------------------------------------------------------------- one order for one bag

  lemma UniqueCons(r: Request, rest: seq<Request>)
    ensures Unique([r] + rest) <==> Unique(rest) && forall x | x in rest :: !SameIdentity(r, x)
  {
    var all := [r] + rest;
    assert forall i | 0 <= i < |rest| :: all[i + 1] == rest[i];
    if Unique(all) {
      forall i, j | 0 <= i < j < |rest| ensures !SameIdentity(rest[i], rest[j]) {
        assert !SameIdentity(all[i + 1], all[j + 1]);
      }
      forall x | x in rest ensures !SameIdentity(r, x) {
        var k :| 0 <= k < |rest| && rest[k] == x;
        assert !SameIdentity(all[0], all[k + 1]);
      }
    }
  }

  /** Two identities in a bag are what repeats, wherever they stand. */
  ghost predicate UniqueBag(bag: multiset<Request>) {
    forall a, b | a in bag && b in bag && SameIdentity(a, b) :: a == b && bag[a] == 1
  }

  lemma {:induction false} UniqueIffBag(rs: seq<Request>)
    ensures Unique(rs) <==> UniqueBag(multiset(rs))
  {
    if rs != [] {
      var r, rest := rs[0], rs[1..];
      assert rs == [r] + rest;
      UniqueIffBag(rest);
      UniqueCons(r, rest);
      BagCons(r, rest);
    }
  }

  lemma BagCons(r: Request, rest: seq<Request>)
    ensures UniqueBag(multiset([r] + rest)) <==>
      UniqueBag(multiset(rest)) && forall x | x in rest :: !SameIdentity(r, x)
  {
    var bag, small := multiset([r] + rest), multiset(rest);
    assert forall x :: bag[x] == small[x] + if x == r then 1 else 0;
    if UniqueBag(bag) {
      forall x | x in rest ensures !SameIdentity(r, x) {
        assert x in small && r in bag;
      }
      forall a, b | a in small && b in small && SameIdentity(a, b) ensures a == b && small[a] == 1 {
        assert a in bag && b in bag;
      }
    }
    if UniqueBag(small) && forall x | x in rest :: !SameIdentity(r, x) {
      assert r !in rest;
      forall a, b | a in bag && b in bag && SameIdentity(a, b) ensures a == b && bag[a] == 1 {
        assert a != r ==> a in rest;
        assert b != r ==> b in rest;
      }
    }
  }

  lemma FirstIsLeast(a: seq<Request>, b: seq<Request>)
    requires Ordered(a) && Ordered(b) && multiset(a) == multiset(b) && a != []
    ensures b != [] && a[0] == b[0]
  {
    assert |multiset(a)| == |a| && |multiset(b)| == |b|;
    assert a[0] in multiset(b) && b[0] in multiset(a);
    var i :| 0 <= i < |b| && b[i] == a[0];
    var j :| 0 <= j < |a| && a[j] == b[0];
  }

  /** A bag of requests has at most one ordered listing. */
  lemma {:induction false} OrderedListingIsUnique(a: seq<Request>, b: seq<Request>)
    requires Ordered(a) && Ordered(b) && multiset(a) == multiset(b)
    ensures a == b
  {
    if a == [] {
      assert |multiset(b)| == |b|;
    } else {
      FirstIsLeast(a, b);
      assert a == [a[0]] + a[1..] && b == [b[0]] + b[1..];
      assert multiset(a[1..]) == multiset(a) - multiset{a[0]};
      assert multiset(b[1..]) == multiset(b) - multiset{b[0]};
      OrderedListingIsUnique(a[1..], b[1..]);
    }
  }

  lemma {:induction false} SameBagParsesAlike(a: seq<Raw>, b: seq<Raw>)
    requires multiset(a) == multiset(b)
    ensures AllValid(a) <==> AllValid(b)
    ensures AllValid(a) ==> multiset(AllParsed(a)) == multiset(AllParsed(b))
    decreases |a|
  {
    assert forall r :: r in a <==> r in multiset(a);
    assert forall r :: r in b <==> r in multiset(b);
    if AllValid(a) {
      ParsedBag(a);
      ParsedBag(b);
    }
  }

  /** How often a request is parsed from a bag of raw ones. */
  function Occurrences(raws: seq<Raw>, r: Request): nat {
    multiset(raws)[Raw(r.slot, Some(r.txid), Some(r.critical), r.bid)]
  }

  lemma {:induction false} ParsedCount(raws: seq<Raw>, r: Request)
    requires AllValid(raws)
    ensures multiset(AllParsed(raws))[r] == Occurrences(raws, r)
  {
    if raws != [] {
      var init, last := raws[..|raws| - 1], raws[|raws| - 1];
      assert raws == init + [last];
      ParsedCount(init, r);
      assert AllParsed(raws) == AllParsed(init) + [Parsed(last)];
      assert last in raws;
      assert Parsed(last) == r <==> last == Raw(r.slot, Some(r.txid), Some(r.critical), r.bid);
    }
  }

  lemma ParsedBag(raws: seq<Raw>)
    requires AllValid(raws)
    ensures forall r :: multiset(AllParsed(raws))[r] == Occurrences(raws, r)
  {
    forall r ensures multiset(AllParsed(raws))[r] == Occurrences(raws, r) {
      ParsedCount(raws, r);
    }
  }

  // ---------------------------------------------------------------- the conversion

  /** The library sort: each request goes before the first one it precedes. */
  function Place(r: Request, sorted: seq<Request>): seq<Request> {
    if sorted == [] || Precedes(r, sorted[0]) then [r] + sorted else [sorted[0]] + Place(r, sorted[1..])
  }

  lemma OrderedCons(first: Request, rest: seq<Request>)
    ensures Ordered([first] + rest) <==> Ordered(rest) && forall x | x in rest :: Precedes(first, x)
  {
    hide Precedes;
    var all := [first] + rest;
    assert forall i | 0 <= i < |rest| :: all[i + 1] == rest[i];
    if Ordered(all) {
      forall i, j | 0 <= i < j < |rest| ensures Precedes(rest[i], rest[j]) {
        assert Precedes(all[i + 1], all[j + 1]);
      }
      forall x | x in rest ensures Precedes(first, x) {
        var k :| 0 <= k < |rest| && rest[k] == x;
        assert Precedes(all[0], all[k + 1]);
      }
    }
  }

  /** Requests of different identity always compare one way, and precedence carries over. */
  lemma StrictOrder(a: Request, b: Request, c: Request)
    ensures !SameIdentity(a, b) ==> (Precedes(a, b) <==> !Precedes(b, a))
    ensures Precedes(a, b) && Precedes(b, c) ==> Precedes(a, c)
  {
  }

  lemma {:induction false} PlaceKeepsOrder(r: Request, sorted: seq<Request>)
    requires Ordered(sorted) && forall x | x in sorted :: !SameIdentity(r, x)
    ensures Ordered(Place(r, sorted)) && multiset(Place(r, sorted)) == multiset(sorted) + multiset{r}
  {
    hide Precedes, Ordered, SameIdentity;
    OrderedCons(r, []);
    if sorted == [] {
      EmptyIsOrdered();
      assert [r] + [] == [r];
    } else {
      var first, rest := sorted[0], sorted[1..];
      assert sorted == [first] + rest && first in sorted;
      OrderedCons(first, rest);
      StrictOrder(r, first, r);
      if Precedes(r, first) {
        forall x | x in sorted ensures Precedes(r, x) {
          StrictOrder(r, first, x);
        }
        OrderedCons(r, sorted);
      } else {
        PlaceKeepsOrder(r, rest);
        var placed := Place(r, rest);
        forall x | x in placed ensures Precedes(first, x) {
          assert x in multiset(placed);
        }
        OrderedCons(first, placed);
      }
    }
  }

  lemma EmptyIsOrdered()
    ensures Ordered([])
  {
  }

  method Sort(rs: seq<Request>) returns (sorted: seq<Request>)
    requires Unique(rs)
    ensures Ordered(sorted) && multiset(sorted) == multiset(rs)
  {
    sorted := [];
    for i := 0 to |rs|
      invariant Ordered(sorted) && multiset(sorted) == multiset(rs[..i])
    {
      forall x | x in sorted ensures !SameIdentity(rs[i], x) {
        assert x in multiset(rs[..i]);
        var k :| 0 <= k < i && rs[..i][k] == x;
        assert !SameIdentity(rs[k], rs[i]);
      }
      PlaceKeepsOrder(rs[i], sorted);
      assert rs[..i + 1] == rs[..i] + [rs[i]];
      sorted := Place(rs[i], sorted);
    }
    assert rs[..|rs|] == rs;
  }

  /** What a payload carries; `None` is a response refused as a whole. */
  ghost predicate IsConversion(raws: seq<Raw>, previous: Option<nat>, out: Option<seq<Request>>) {
    && (out.Some? <==> previous.Some? && AllValid(raws) && Unique(AllParsed(raws)))
    && (out.Some? ==> Ordered(out.value) && multiset(out.value) == multiset(AllParsed(raws)))
  }

  /** What a conversion is, field by field: which responses have one, what it lists, and in which order. */
  lemma ConversionMeaning(raws: seq<Raw>, previous: Option<nat>, out: Option<seq<Request>>)
    requires IsConversion(raws, previous, out)
    ensures out.Some? <==>
      && previous.Some? && (forall r | r in raws :: r.slot <= 255 && r.txid.Some? && r.critical.Some?)
      && forall i, j | 0 <= i < j < |raws| :: raws[i].slot != raws[j].slot || raws[i].txid != raws[j].txid
    ensures out.Some? ==>
      forall r: Request :: multiset(out.value)[r] == multiset(raws)[Raw(r.slot, Some(r.txid), Some(r.critical), r.bid)]
    ensures out.Some? ==>
      forall i, j | 0 <= i < j < |out.value| ::
        var a, b := out.value[i], out.value[j];
        a.slot < b.slot || (a.slot == b.slot && (a.bid > b.bid || (a.bid == b.bid && a.txid < b.txid)))
  {
    if AllValid(raws) {
      ParsedBag(raws);
      var parsed := AllParsed(raws);
      forall i, j | 0 <= i < j < |raws|
        ensures SameIdentity(parsed[i], parsed[j]) <==> raws[i].slot == raws[j].slot && raws[i].txid == raws[j].txid
      {
        assert raws[i] in raws && raws[j] in raws;
      }
    }
    if out.Some? {
      forall i, j | 0 <= i < j < |out.value| ensures Precedes(out.value[i], out.value[j]) {
      }
    }
  }

  /** `bmm_requests`. */
  method Convert(raws: seq<Raw>, previous: Option<nat>) returns (out: Option<seq<Request>>)
    ensures IsConversion(raws, previous, out)
  {
    if previous.None? {
      return None;
    }
    var requests: seq<Request> := [];
    for i := 0 to |raws|
      invariant AllValid(raws[..i]) && requests == AllParsed(raws[..i])
    {
      assert raws[..i + 1][..i] == raws[..i] && raws[i] in raws;
      if !Valid(raws[i]) {
        return None;
      }
      requests := requests + [Parsed(raws[i])];
    }
    assert raws[..|raws|] == raws;
    var identities: set<(nat, nat)> := {};
    for i := 0 to |requests|
      invariant Unique(requests[..i])
      invariant forall s, t :: (s, t) in identities <==> exists k :: 0 <= k < i && requests[k].slot == s && requests[k].txid == t
    {
      if (requests[i].slot, requests[i].txid) in identities {
        var k :| 0 <= k < i && requests[k].slot == requests[i].slot && requests[k].txid == requests[i].txid;
        assert SameIdentity(requests[k], requests[i]);
        return None;
      }
      identities := identities + {(requests[i].slot, requests[i].txid)};
    }
    assert requests[..|requests|] == requests;
    var sorted := Sort(requests);
    return Some(sorted);
  }

  /** Two responses that list the same requests in any order convert to the same payload, or both fail. */
  lemma ConversionIsCanonical(a: seq<Raw>, b: seq<Raw>, previous: Option<nat>, outA: Option<seq<Request>>, outB: Option<seq<Request>>)
    requires multiset(a) == multiset(b)
    requires IsConversion(a, previous, outA) && IsConversion(b, previous, outB)
    ensures outA == outB
  {
    SameBagParsesAlike(a, b);
    if AllValid(a) {
      UniqueIffBag(AllParsed(a));
      UniqueIffBag(AllParsed(b));
    }
    if outA.Some? && outB.Some? {
      OrderedListingIsUnique(outA.value, outB.value);
    }
  }

  /** Different bags of valid requests never convert to the same payload. */
  lemma ConversionIsFaithful(a: seq<Raw>, b: seq<Raw>, previous: Option<nat>, out: seq<Request>)
    requires IsConversion(a, previous, Some(out)) && IsConversion(b, previous, Some(out))
    ensures multiset(a) == multiset(b)
  {
    ParsedBag(a);
    ParsedBag(b);
    forall raw: Raw ensures multiset(a)[raw] == multiset(b)[raw] {
      if Valid(raw) {
        assert Occurrences(a, Parsed(raw)) == Occurrences(b, Parsed(raw));
      } else {
        assert raw !in a && raw !in b;
      }
    }
  }
}
