/**
  The write-order lock. Identity ids are handed out when a row is inserted, not when it commits, so
  a consumer paging by `id > cursor` depends on commits happening in id order.
 */
module WriteOrder {
  import opened Wrappers

  type Writer = nat
  type Id = nat

  /** A consumer: the last id it read, and every id it has been given, in order. */
  datatype Reader = Reader(cursor: Id, seen: seq<Id>)

  /** `open` holds the uncommitted ids of every open transaction. */
  datatype State = State(
    lastId: Id,
    lock: Option<Writer>,
    open: map<Writer, set<Id>>,
    committed: set<Id>,
    readers: map<nat, Reader>)

  datatype Step =
    | Begin(w: Writer)
    | InsertRow(w: Writer)
    | Commit(w: Writer)
    | Rollback(w: Writer)
    | Subscribe(r: nat)
    | Page(r: nat, limit: nat)

  function Init(): State {
    State(0, None, map[], {}, map[])
  }

  // ---------------------------------------------------------------- reading a page

  ghost function Least(ids: set<Id>): (id: Id)
    requires ids != {}
    ensures id in ids && forall k | k in ids :: id <= k
  {
    var some :| some in ids;
    if ids == {some} then some
    else
      var rest := Least(ids - {some});
      assert ids == {some} + (ids - {some});
      if some < rest then some else rest
  }

  function Unread(ids: set<Id>, cursor: Id): set<Id> {
    set k | k in ids && k > cursor
  }

  /** `WHERE id > cursor ORDER BY id LIMIT limit` over one snapshot. */
  ghost function ReadPage(committed: set<Id>, reader: Reader, limit: nat): Reader
    decreases limit
  {
    if limit == 0 || Unread(committed, reader.cursor) == {} then reader
    else
      var id := Least(Unread(committed, reader.cursor));
      ReadPage(committed, Reader(id, reader.seen + [id]), limit - 1)
  }

  // ---------------------------------------------------------------- steps

  /** A disabled step changes nothing: a writer waits for the lock, or has no open transaction. */
  ghost function Next(s: State, step: Step, ordered: bool): State {
    match step
    case Begin(w) =>
      if w in s.open || (ordered && s.lock.Some?) then s
      else s.(lock := if ordered then Some(w) else s.lock, open := s.open[w := {}])
    case InsertRow(w) =>
      if w !in s.open then s
      else s.(lastId := s.lastId + 1, open := s.open[w := s.open[w] + {s.lastId + 1}])
    case Commit(w) =>
      if w !in s.open then s
      else s.(committed := s.committed + s.open[w], open := s.open - {w}, lock := if s.lock == Some(w) then None else s.lock)
    case Rollback(w) =>
      if w !in s.open then s
      else s.(open := s.open - {w}, lock := if s.lock == Some(w) then None else s.lock)
    case Subscribe(r) =>
      if r in s.readers then s else s.(readers := s.readers[r := Reader(0, [])])
    case Page(r, limit) =>
      if r !in s.readers then s else s.(readers := s.readers[r := ReadPage(s.committed, s.readers[r], limit)])
  }

  ghost function Play(s: State, steps: seq<Step>, ordered: bool): State
    decreases |steps|
  {
    if steps == [] then s else Play(Next(s, steps[0], ordered), steps[1..], ordered)
  }

  // ---------------------------------------------------------------- the invariant

  /** The reader has exactly the committed ids up to its cursor, once each and ascending. */
  ghost predicate ReaderExact(committed: set<Id>, reader: Reader) {
    && (forall k :: k in reader.seen <==> k in committed && k <= reader.cursor)
    && (forall i, j | 0 <= i < j < |reader.seen| :: reader.seen[i] < reader.seen[j])
    && (reader.cursor == 0 || reader.cursor in committed)
  }

  ghost predicate Inv(s: State) {
    && s.open.Keys == (if s.lock.Some? then {s.lock.value} else {})
    && (forall k | k in s.committed :: 0 < k <= s.lastId)
    && (forall w, k | w in s.open && k in s.open[w] :: 0 < k <= s.lastId && forall c | c in s.committed :: c < k)
    && (forall r | r in s.readers :: ReaderExact(s.committed, s.readers[r]))
  }

  lemma {:induction false} ReadPageIsExact(committed: set<Id>, reader: Reader, limit: nat)
    requires ReaderExact(committed, reader)
    ensures ReaderExact(committed, ReadPage(committed, reader, limit))
    ensures ReadPage(committed, reader, limit).cursor >= reader.cursor
    decreases limit
  {
    if limit > 0 && Unread(committed, reader.cursor) != {} {
      var id := Least(Unread(committed, reader.cursor));
      var more := Reader(id, reader.seen + [id]);
      forall k ensures k in more.seen <==> k in committed && k <= id {
        assert k in committed && reader.cursor < k ==> k in Unread(committed, reader.cursor);
      }
      forall i, j | 0 <= i < j < |more.seen| ensures more.seen[i] < more.seen[j] {
        assert more.seen[i] in reader.seen;
      }
      ReadPageIsExact(committed, more, limit - 1);
    }
  }

  /** A page is as long as the limit and the unread rows allow. */
  lemma {:induction false} ReadPageIsFull(committed: set<Id>, reader: Reader, limit: nat)
    ensures var page := ReadPage(committed, reader, limit);
      && reader.seen <= page.seen
      && |page.seen| == |reader.seen| + (if limit < |Unread(committed, reader.cursor)| then limit
                                         else |Unread(committed, reader.cursor)|)
    decreases limit
  {
    var unread := Unread(committed, reader.cursor);
    if limit > 0 && unread != {} {
      var id := Least(unread);
      assert Unread(committed, id) == unread - {id};
      ReadPageIsFull(committed, Reader(id, reader.seen + [id]), limit - 1);
    }
  }

  /** A long enough page catches the reader up with everything committed. */
  lemma ReaderCatchesUp(committed: set<Id>, reader: Reader, limit: nat)
    requires ReaderExact(committed, reader) && limit >= |Unread(committed, reader.cursor)| && 0 !in committed
    ensures forall id :: id in ReadPage(committed, reader, limit).seen <==> id in committed
    decreases limit
  {
    var unread := Unread(committed, reader.cursor);
    ReadPageIsExact(committed, reader, limit);
    if unread != {} {
      var id := Least(unread);
      var more := Reader(id, reader.seen + [id]);
      ReadPageIsExact(committed, reader, 1);
      assert ReadPage(committed, reader, 1) == ReadPage(committed, more, 0) == more;
      assert Unread(committed, id) == unread - {id};
      ReaderCatchesUp(committed, more, limit - 1);
    } else {
      forall id | id in committed ensures id <= reader.cursor {
        assert id > reader.cursor ==> id in unread;
      }
    }
  }

  /** A commit only adds ids above everything any reader has passed. */
  lemma NewIdsAreAbove(s: State, w: Writer)
    requires Inv(s) && w in s.open
    ensures forall r | r in s.readers :: ReaderExact(s.committed + s.open[w], s.readers[r])
  {
    forall r | r in s.readers ensures ReaderExact(s.committed + s.open[w], s.readers[r]) {
      var reader := s.readers[r];
      assert ReaderExact(s.committed, reader);
      forall k ensures k in reader.seen <==> k in s.committed + s.open[w] && k <= reader.cursor {
        assert reader.cursor in s.committed || reader.cursor == 0;
      }
    }
  }

  lemma StepKeepsInv(s: State, step: Step)
    requires Inv(s)
    ensures Inv(Next(s, step, true))
  {
    match step
    case Commit(w) =>
      if w in s.open {
        NewIdsAreAbove(s, w);
      }
    case Page(r, limit) =>
      if r in s.readers {
        ReadPageIsExact(s.committed, s.readers[r], limit);
      }
    case _ =>
  }

  lemma {:induction false} EveryRunIsOrdered(s: State, steps: seq<Step>)
    requires Inv(s)
    ensures Inv(Play(s, steps, true))
    decreases |steps|
  {
    if steps != [] {
      StepKeepsInv(s, steps[0]);
      EveryRunIsOrdered(Next(s, steps[0], true), steps[1..]);
    }
  }

  // ---------------------------------------------------------------- what becomes visible

  predicate Ends(step: Step, w: Writer) {
    step == Commit(w) || step == Rollback(w)
  }

  /** An open transaction keeps its rows until it ends. */
  lemma {:induction false} OpenRowsStay(s: State, steps: seq<Step>, ordered: bool, w: Writer, id: Id)
    requires w in s.open && id in s.open[w] && forall step | step in steps :: !Ends(step, w)
    ensures w in Play(s, steps, ordered).open && id in Play(s, steps, ordered).open[w]
    decreases |steps|
  {
    if steps != [] {
      assert steps[0] in steps;
      OpenRowsStay(Next(s, steps[0], ordered), steps[1..], ordered, w, id);
    }
  }

  lemma {:induction false} CommittedStays(s: State, steps: seq<Step>, ordered: bool, id: Id)
    requires id in s.committed
    ensures id in Play(s, steps, ordered).committed
    decreases |steps|
  {
    if steps != [] {
      CommittedStays(Next(s, steps[0], ordered), steps[1..], ordered, id);
    }
  }

  /** A row that an open transaction inserts gets the next id, is visible from its commit on, and never before. */
  lemma InsertedRowAppearsAtCommit(s: State, w: Writer, between: seq<Step>, future: seq<Step>)
    requires Inv(s) && w in s.open && forall step | step in between :: !Ends(step, w)
    ensures var id, mid := s.lastId + 1, Play(Next(s, InsertRow(w), true), between, true);
      && id !in mid.committed
      && id in Next(mid, Commit(w), true).committed
      && id in Play(Next(mid, Commit(w), true), future, true).committed
      && id !in Play(Next(mid, Rollback(w), true), future, true).committed
  {
    var id, first := s.lastId + 1, Next(s, InsertRow(w), true);
    StepKeepsInv(s, InsertRow(w));
    OpenRowsStay(first, between, true, w, id);
    EveryRunIsOrdered(first, between);
    var mid := Play(first, between, true);
    CommittedStays(Next(mid, Commit(w), true), future, true, id);
    StepKeepsInv(mid, Rollback(w));
    var gone := Next(mid, Rollback(w), true);
    assert gone.open == map[];
    ClosedStaysClosed(gone, gone.lastId, future);
  }

  /** A writer that asks for the lock gets its transaction exactly when no other one is open. */
  lemma BeginsIff(s: State, w: Writer)
    requires Inv(s)
    ensures w in Next(s, Begin(w), true).open <==> w in s.open || s.open == map[]
  {
    if s.open != map[] {
      var other :| other in s.open;
    }
  }

  // ---------------------------------------------------------------- nothing is ever skipped

  /** No row at or below `bound` can still appear. */
  ghost predicate Closed(s: State, bound: Id) {
    bound <= s.lastId && forall w, k | w in s.open && k in s.open[w] :: k > bound
  }

  lemma {:induction false} ClosedStaysClosed(s: State, bound: Id, steps: seq<Step>)
    requires Closed(s, bound)
    ensures forall k | k in Play(s, steps, true).committed && k <= bound :: k in s.committed
    decreases |steps|
  {
    if steps != [] {
      var n := Next(s, steps[0], true);
      assert Closed(n, bound);
      assert forall k | k in n.committed && k <= bound :: k in s.committed;
      ClosedStaysClosed(n, bound, steps[1..]);
    }
  }

  /**
    At every moment a reader has already been given each row at or below its cursor that is, or ever
    will be, committed, whatever writers run, roll back or are still waiting.
   */
  lemma ReaderNeverSkips(past: seq<Step>, future: seq<Step>, r: nat, id: Id)
    requires r in Play(Init(), past, true).readers
    requires id in Play(Play(Init(), past, true), future, true).committed
    requires id <= Play(Init(), past, true).readers[r].cursor
    ensures id in Play(Init(), past, true).readers[r].seen
  {
    var now := Play(Init(), past, true);
    EveryRunIsOrdered(Init(), past);
    var reader := now.readers[r];
    assert ReaderExact(now.committed, reader);
    assert Closed(now, reader.cursor);
    ClosedStaysClosed(now, reader.cursor, future);
  }

  /** Every row that becomes visible has a larger id than every row visible before it. */
  lemma RowsAppearInIdOrder(past: seq<Step>, step: Step, earlier: Id, id: Id)
    requires var now := Play(Init(), past, true);
      earlier in now.committed && id in Next(now, step, true).committed && id !in now.committed
    ensures earlier < id
  {
    EveryRunIsOrdered(Init(), past);
  }

  /** Without the lock, after `past` the reader is beyond a row that `future` makes visible and that it was never given. */
  ghost predicate Loses(past: seq<Step>, future: seq<Step>, r: nat, id: Id) {
    var now := Play(Init(), past, false);
    && r in now.readers
    && id in Play(now, future, false).committed
    && id <= now.readers[r].cursor && id !in now.readers[r].seen
  }

  /** Two writers insert, the second commits first, and a reader reads its row. */
  const OVERTAKING := [Begin(1), Begin(2), InsertRow(1), InsertRow(2), Commit(2), Subscribe(0), Page(0, 1)]

  /** Without the lock two transactions can commit out of id order, and the reader loses a row for good. */
  lemma UnorderedWritersLoseRows()
    ensures Loses(OVERTAKING, [Commit(1)], 0, 1)
  {
  }
}
