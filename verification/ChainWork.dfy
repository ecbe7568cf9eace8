/**
  Chain work of blocks fetched from the node: a block's own work is the difference of two cumulative
  values the node reports, and a fetched page follows parent hashes.
 */
module ChainWork {
  import opened Wrappers

  type Hash = nat

  /** The all-zero hash, the parent of the first block. */
  const ZERO: Hash := 0

  // ---------------------------------------------------------------- 256-bit integers as bytes

  type Byte = b: nat | b < 256

  function Base(n: nat): (p: nat)
    ensures p > 0
  {
    if n == 0 then 1 else 256 * Base(n - 1)
  }

  /** Most significant byte first, as the node's hexadecimal spells it. */
  function FromBigEndian(bytes: seq<Byte>): nat {
    if bytes == [] then 0 else 256 * FromBigEndian(bytes[..|bytes| - 1]) + bytes[|bytes| - 1]
  }

  function FromLittleEndian(bytes: seq<Byte>): nat {
    if bytes == [] then 0 else bytes[0] + 256 * FromLittleEndian(bytes[1..])
  }

  function ToLittleEndian(n: nat, width: nat): (bytes: seq<Byte>)
    ensures |bytes| == width
  {
    if width == 0 then [] else [n % 256] + ToLittleEndian(n / 256, width - 1)
  }

  function Reverse(bytes: seq<Byte>): seq<Byte> {
    if bytes == [] then [] else [bytes[|bytes| - 1]] + Reverse(bytes[..|bytes| - 1])
  }

  lemma {:induction false} BigEndianFits(bytes: seq<Byte>)
    ensures FromBigEndian(bytes) < Base(|bytes|)
  {
    if bytes != [] {
      BigEndianFits(bytes[..|bytes| - 1]);
    }
  }

  /** The stored little-endian bytes are the node's bytes in reverse. */
  lemma {:induction false} StoredBytesAreReversed(bytes: seq<Byte>)
    ensures ToLittleEndian(FromBigEndian(bytes), |bytes|) == Reverse(bytes)
  {
    if bytes != [] {
      var init, last := bytes[..|bytes| - 1], bytes[|bytes| - 1];
      StoredBytesAreReversed(init);
      DivMod256(FromBigEndian(init), last);
    }
  }

  lemma DivMod256(q: nat, r: Byte)
    ensures (256 * q + r) / 256 == q && (256 * q + r) % 256 == r
  {
  }

  /** Storing any integer that fits and reading it back gives the same integer. */
  lemma {:induction false} LittleEndianRoundTrip(n: nat, width: nat)
    requires n < Base(width)
    ensures FromLittleEndian(ToLittleEndian(n, width)) == n
  {
    if width > 0 {
      LittleEndianRoundTrip(n / 256, width - 1);
      assert ToLittleEndian(n, width)[1..] == ToLittleEndian(n / 256, width - 1);
    }
  }

  lemma SameInteger(bytes: seq<Byte>)
    ensures FromLittleEndian(ToLittleEndian(FromBigEndian(bytes), |bytes|)) == FromBigEndian(bytes)
  {
    BigEndianFits(bytes);
    LittleEndianRoundTrip(FromBigEndian(bytes), |bytes|);
  }

  // ---------------------------------------------------------------- one header

  /** `getblockheader`: missing fields are `None`; `chainwork` holds the decoded hexadecimal. */
  datatype HeaderReply = HeaderReply(
    hash: Option<Hash>,
    height: Option<nat>,
    previous: Option<Hash>,
    chainwork: Option<seq<Byte>>,
    time: Option<nat>)

  /** The decoded raw block, with the work its own target proves. */
  datatype RawBlock = RawBlock(hash: Hash, previous: Hash, time: nat, committed: bool, work: nat)

  /** What the node answers to the `call`th question; two answers about one hash may differ. */
  datatype Node = Node(header: (nat, Hash) -> Option<HeaderReply>, raw: (nat, Hash) -> Option<RawBlock>)

  datatype Header = Header(hash: Hash, previous: Hash, height: nat, blockWork: seq<Byte>, cumulative: seq<Byte>, time: nat)

  predicate WorkKnown(reply: HeaderReply) {
    reply.chainwork.Some? && |reply.chainwork.value| == 32
  }

  function Work(reply: HeaderReply): nat
    requires WorkKnown(reply)
  {
    FromBigEndian(reply.chainwork.value)
  }

  function Before(height: nat): nat {
    if height == 0 then 0 else height - 1
  }

  predicate ParentFits(parent: Option<HeaderReply>, previous: Hash, height: nat) {
    && parent.Some? && parent.value.hash == Some(previous) && parent.value.height == Some(Before(height))
    && WorkKnown(parent.value)
  }

  /** The cumulative work below a block: none below the first one. */
  function ParentWork(parent: Option<HeaderReply>, height: nat): nat {
    if height == 0 || parent.None? || !WorkKnown(parent.value) then 0 else Work(parent.value)
  }

  /** `header`, which asks for the block and, above the first one, for its parent. */
  function HeaderOf(node: Node, call: nat, hash: Hash): (header: Option<Header>) {
    var reply := node.header(call, hash);
    if reply.None? || reply.value.hash != Some(hash) || reply.value.height.None? || reply.value.height.value > U32_MAX then None
    else
      var height := reply.value.height.value;
      var previous := if height == 0 then Some(ZERO) else reply.value.previous;
      if previous.None? || !WorkKnown(reply.value) then None
      else
        var parent := node.header(call, previous.value);
        if height > 0 && !ParentFits(parent, previous.value, height) then None
        else
          var work, below := Work(reply.value), ParentWork(parent, height);
          if work <= below || reply.value.time.None? then None
          else Some(Header(hash, previous.value, height, ToLittleEndian(work - below, 32), ToLittleEndian(work, 32),
                           reply.value.time.value))
  }

  /** `block`: the raw block must be the one the header describes and prove its increment. */
  function BlockOf(node: Node, call: nat, hash: Hash): Option<Header> {
    var header := HeaderOf(node, call, hash);
    var raw := node.raw(call, hash);
    if header.None? || raw.None? then None
    else if raw.value.hash != hash || raw.value.previous != header.value.previous || raw.value.time != header.value.time
            || !raw.value.committed || ToLittleEndian(raw.value.work, 32) != header.value.blockWork
    then None
    else header
  }

  function OwnWork(h: Header): nat {
    FromLittleEndian(h.blockWork)
  }

  function TotalWork(h: Header): nat {
    FromLittleEndian(h.cumulative)
  }

  /** Nothing under- or overflows: the three integers are the node's and their difference. */
  lemma HeaderWork(node: Node, call: nat, hash: Hash)
    requires HeaderOf(node, call, hash).Some?
    ensures var h, reply := HeaderOf(node, call, hash).value, node.header(call, hash).value;
      && WorkKnown(reply) && TotalWork(h) == Work(reply) < Base(32)
      && h.height <= U32_MAX && reply.height == Some(h.height) && h.hash == hash
      && TotalWork(h) == OwnWork(h) + ParentWork(node.header(call, h.previous), h.height)
      && OwnWork(h) > 0
      && (h.height > 0 ==> ParentFits(node.header(call, h.previous), h.previous, h.height))
  {
    var h, reply := HeaderOf(node, call, hash).value, node.header(call, hash).value;
    hide FromBigEndian, FromLittleEndian, ToLittleEndian, Base;
    BigEndianFits(reply.chainwork.value);
    LittleEndianRoundTrip(Work(reply), 32);
    LittleEndianRoundTrip(Work(reply) - ParentWork(node.header(call, h.previous), h.height), 32);
  }

  /** A header is given exactly when the node's replies are complete and consistent and the work grows. */
  lemma HeaderIff(node: Node, call: nat, hash: Hash)
    ensures var reply := node.header(call, hash);
      HeaderOf(node, call, hash).Some? <==>
        && reply.Some? && reply.value.hash == Some(hash) && reply.value.time.Some? && WorkKnown(reply.value)
        && reply.value.height.Some? && reply.value.height.value <= 0xffff_ffff
        && if reply.value.height.value == 0 then Work(reply.value) > 0
           else
             && reply.value.previous.Some?
             && var parent := node.header(call, reply.value.previous.value);
                && parent.Some? && parent.value.hash == reply.value.previous && WorkKnown(parent.value)
                && parent.value.height == Some(reply.value.height.value - 1)
                && Work(reply.value) > Work(parent.value)
    ensures HeaderOf(node, call, hash).Some? ==>
      var h, reply := HeaderOf(node, call, hash).value, node.header(call, hash).value;
      && h.hash == hash && Some(h.height) == reply.height && Some(h.time) == reply.time
      && (if h.height == 0 then h.previous == 0 else Some(h.previous) == reply.previous)
  {
    hide FromBigEndian, ToLittleEndian;
  }

  /** The raw block is the one the header describes, whole, and its own target proves the header's increment. */
  predicate Proves(raw: Option<RawBlock>, h: Header) {
    && raw.Some? && raw.value.committed
    && raw.value.hash == h.hash && raw.value.previous == h.previous && raw.value.time == h.time
    && raw.value.work == OwnWork(h)
  }

  /** A block is accepted if and only if its raw block proves its header. */
  lemma BlockIsProvedIff(node: Node, call: nat, hash: Hash)
    requires node.raw(call, hash).Some? ==> node.raw(call, hash).value.work < Base(32)
    ensures BlockOf(node, call, hash).Some? <==>
      HeaderOf(node, call, hash).Some? && Proves(node.raw(call, hash), HeaderOf(node, call, hash).value)
    ensures BlockOf(node, call, hash).Some? ==> BlockOf(node, call, hash) == HeaderOf(node, call, hash)
  {
    var header, raw := HeaderOf(node, call, hash), node.raw(call, hash);
    if header.Some? {
      HeaderIff(node, call, hash);
      OwnWorkIsStored(node, call, hash);
      if raw.Some? {
        LittleEndianRoundTrip(raw.value.work, 32);
      }
    }
    hide HeaderOf, FromLittleEndian, ToLittleEndian;
  }

  lemma OwnWorkIsStored(node: Node, call: nat, hash: Hash)
    requires HeaderOf(node, call, hash).Some?
    ensures HeaderOf(node, call, hash).value.blockWork == ToLittleEndian(OwnWork(HeaderOf(node, call, hash).value), 32)
  {
    var h := HeaderOf(node, call, hash).value;
    var reply := node.header(call, hash).value;
    hide FromBigEndian, FromLittleEndian, ToLittleEndian, Base;
    BigEndianFits(reply.chainwork.value);
    LittleEndianRoundTrip(Work(reply) - ParentWork(node.header(call, h.previous), h.height), 32);
  }

  // ---------------------------------------------------------------- a fetched page

  /** The hash the `i`th call asks for. */
  function Asked(cursor: Hash, page: seq<Header>, i: nat): Hash
    requires i <= |page|
  {
    if i == 0 then cursor else page[i - 1].previous
  }

  /** The `i`th block is the one its predecessor names as parent. */
  predicate FetchedAt(node: Node, first: nat, cursor: Hash, page: seq<Header>, i: nat)
    requires i < |page|
  {
    BlockOf(node, first + i, Asked(cursor, page, i)) == Some(page[i])
  }

  ghost predicate Fetched(node: Node, first: nat, cursor: Hash, page: seq<Header>) {
    forall i: nat | i < |page| :: FetchedAt(node, first, cursor, page, i)
  }

  lemma FetchedOneMore(node: Node, first: nat, cursor: Hash, page: seq<Header>, block: Header)
    requires Fetched(node, first, cursor, page)
    requires BlockOf(node, first + |page|, Asked(cursor, page, |page|)) == Some(block)
    ensures Fetched(node, first, cursor, page + [block])
  {
    hide BlockOf;
    var more := page + [block];
    forall i: nat | i < |more| ensures FetchedAt(node, first, cursor, more, i) {
      assert Asked(cursor, more, i) == Asked(cursor, page, i);
      assert i < |page| ==> FetchedAt(node, first, cursor, page, i);
    }
  }

  /** The walk got `good` blocks and then the next one failed. */
  ghost predicate FailsAfter(node: Node, first: nat, cursor: Hash, good: seq<Header>) {
    Fetched(node, first, cursor, good) && BlockOf(node, first + |good|, Asked(cursor, good, |good|)).None?
  }

  /** `fetch`: every requested block or none. */
  method Fetch(node: Node, first: nat, cursor: Hash, requested: nat) returns (page: Option<seq<Header>>)
    ensures page.Some? ==> |page.value| == requested && Fetched(node, first, cursor, page.value)
    ensures page.None? ==> exists good :: |good| < requested && FailsAfter(node, first, cursor, good)
  {
    var hash, blocks := cursor, [];
    assert Fetched(node, first, cursor, blocks);
    hide BlockOf, Fetched;
    for i := 0 to requested
      invariant |blocks| == i && Fetched(node, first, cursor, blocks) && hash == Asked(cursor, blocks, i)
    {
      var block := BlockOf(node, first + i, hash);
      if block.None? {
        assert FailsAfter(node, first, cursor, blocks);
        return None;
      }
      FetchedOneMore(node, first, cursor, blocks, block.value);
      hash := block.value.previous;
      blocks := blocks + [block.value];
    }
    return Some(blocks);
  }

  /** The node gives one cumulative work for each hash, whenever it is asked. */
  ghost predicate OneWorkPerHash(node: Node) {
    forall a: nat, b: nat, h: Hash ::
      node.header(a, h).Some? && node.header(b, h).Some? && WorkKnown(node.header(a, h).value) && WorkKnown(node.header(b, h).value)
      ==> Work(node.header(a, h).value) == Work(node.header(b, h).value)
  }

  /** No block has the all-zero hash. */
  ghost predicate NoZeroBlock(node: Node) {
    forall call: nat :: node.header(call, ZERO).None?
  }

  function SumOfWork(page: seq<Header>): nat {
    if page == [] then 0 else OwnWork(page[0]) + SumOfWork(page[1..])
  }

  lemma BlockIsHeader(node: Node, call: nat, hash: Hash)
    requires BlockOf(node, call, hash).Some?
    ensures HeaderOf(node, call, hash) == BlockOf(node, call, hash)
    ensures node.header(call, hash).Some?
  {
  }

  /** Every block of a fetched page is proved by its raw block. */
  lemma FetchedBlocksAreProved(node: Node, first: nat, cursor: Hash, page: seq<Header>, i: nat)
    requires Fetched(node, first, cursor, page) && i < |page|
    requires forall call: nat, h :: node.raw(call, h).Some? ==> node.raw(call, h).value.work < Base(32)
    ensures page[i].hash == Asked(cursor, page, i) && Proves(node.raw(first + i, page[i].hash), page[i])
  {
    hide BlockOf, Proves;
    assert FetchedAt(node, first, cursor, page, i);
    BlockIsProvedIff(node, first + i, Asked(cursor, page, i));
    HeaderIff(node, first + i, Asked(cursor, page, i));
  }

  lemma ParentOfFirst(node: Node, call: nat, hash: Hash)
    requires HeaderOf(node, call, hash).Some? && HeaderOf(node, call, hash).value.height == 0
    ensures HeaderOf(node, call, hash).value.previous == ZERO
  {
  }

  /** What two consecutive blocks of a page say about each other. */
  lemma StepWork(node: Node, call: nat, hash: Hash, child: Header, parent: Header)
    requires BlockOf(node, call, hash) == Some(child) && BlockOf(node, call + 1, child.previous) == Some(parent)
    requires NoZeroBlock(node)
    ensures child.height > 0 && OwnWork(child) > 0
    ensures TotalWork(child) == OwnWork(child) + TotalWork(parent) <==>
      Work(node.header(call, child.previous).value) == Work(node.header(call + 1, child.previous).value)
    ensures OneWorkPerHash(node) ==> TotalWork(child) == OwnWork(child) + TotalWork(parent)
  {
    BlockIsHeader(node, call, hash);
    BlockIsHeader(node, call + 1, child.previous);
    hide BlockOf, HeaderOf, FromBigEndian;
    HeaderWork(node, call, hash);
    HeaderWork(node, call + 1, child.previous);
    if child.height == 0 {
      ParentOfFirst(node, call, hash);
    }
  }

  lemma FetchedRest(node: Node, first: nat, cursor: Hash, page: seq<Header>)
    requires Fetched(node, first, cursor, page) && page != []
    ensures Fetched(node, first + 1, page[0].previous, page[1..])
  {
    hide BlockOf;
    var rest, next, parent := page[1..], first + 1, page[0].previous;
    forall i: nat | i < |rest| ensures FetchedAt(node, next, parent, rest, i) {
      assert FetchedAt(node, first, cursor, page, i + 1);
      assert Asked(parent, rest, i) == Asked(cursor, page, i + 1);
    }
  }

  /** A page of any length telescopes: newest total is oldest total plus the works in between. */
  lemma {:induction false} PageTelescopes(node: Node, first: nat, cursor: Hash, page: seq<Header>)
    requires OneWorkPerHash(node) && NoZeroBlock(node) && Fetched(node, first, cursor, page) && page != []
    ensures TotalWork(page[0]) == TotalWork(page[|page| - 1]) + SumOfWork(page[..|page| - 1])
    ensures forall i | 0 <= i < |page| - 1 :: TotalWork(page[i]) > TotalWork(page[i + 1])
    decreases |page|
  {
    hide BlockOf, OneWorkPerHash, NoZeroBlock;
    if |page| > 1 {
      var rest := page[1..];
      assert FetchedAt(node, first, cursor, page, 0) && FetchedAt(node, first, cursor, page, 1);
      StepWork(node, first, cursor, page[0], page[1]);
      FetchedRest(node, first, cursor, page);
      PageTelescopes(node, first + 1, page[0].previous, rest);
      assert page[..|page| - 1][1..] == rest[..|rest| - 1];
      forall i | 0 <= i < |page| - 1 ensures TotalWork(page[i]) > TotalWork(page[i + 1]) {
        assert i > 0 ==> page[i] == rest[i - 1] && page[i + 1] == rest[i - 1 + 1];
      }
    } else {
      assert page[..|page| - 1] == [];
    }
  }
}
