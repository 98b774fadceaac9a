/**
 What one queue keeps in Redis: the list of waiting ids (its left end first), the set of delayed ids scored by ETA
 second, and one hash per task. Each function is one Redis command, taken as atomic. The content of a hash is a
 parameter: maps of texts for the broker itself, tasks for the protocol above it.
 */
module Redis {
  import opened Clock
  import opened Wrappers

  type Id = string

  /** A hash and the moment it expires, if any. */
  datatype Cell<+H> = Cell(content: H, expires: Option<Time>)

  datatype Store<+H> = Store(list: seq<Id>, delayed: map<Id, int>, hashes: map<Id, Cell<H>>)

  /** Where a publication puts the id: RPUSH, LPUSH, or ZADD with a score in seconds. */
  datatype Dest = Back | Front | At(score: int)

  /** The branch `publish` takes at time `now`: no ETA, an ETA already past, or one to wait for. */
  function Destination(eta: Time, now: Time): Dest {
    if eta == ZERO_TIME then Back else if eta < now then Front else At(Second(eta))
  }

  /** An expired key is gone for every reader. */
  predicate Visible<H>(st: Store<H>, id: Id, now: Time) {
    id in st.hashes && (st.hashes[id].expires.Some? ==> now < st.hashes[id].expires.value)
  }

  function Content<H>(st: Store<H>, id: Id, now: Time): Option<H> {
    if Visible(st, id, now) then Some(st.hashes[id].content) else None
  }

  /** HMSET and, with a `ttl` in seconds, EXPIRE. Without one a key keeps the expiry it has. */
  function Write<H>(st: Store<H>, id: Id, content: H, ttl: Option<int>, now: Time): Store<H> {
    var kept := if Visible(st, id, now) then st.hashes[id].expires else None;
    var expires := if ttl.Some? then Some(AfterSeconds(now, ttl.value)) else kept;
    st.(hashes := st.hashes[id := Cell(content, expires)])
  }

  function Push<H>(st: Store<H>, id: Id, dest: Dest): Store<H> {
    match dest
    case Back => st.(list := st.list + [id])
    case Front => st.(list := [id] + st.list)
    case At(score) => st.(delayed := st.delayed[id := score])
  }

  /** BRPOP takes the rightmost id. */
  function Popped<H>(st: Store<H>): Store<H>
    requires st.list != []
  {
    st.(list := st.list[..|st.list| - 1])
  }

  /** ZRANGEBYSCORE from 0 to the second of `max`. */
  function InRange(delayed: map<Id, int>, max: Time): set<Id> {
    set id | id in delayed && 0 <= delayed[id] <= Second(max)
  }

  /** ZREMRANGEBYSCORE over the same range. */
  function Cleared<H>(st: Store<H>, max: Time): Store<H> {
    st.(delayed := st.delayed - InRange(st.delayed, max))
  }

  // What the list keeps of the order of arrivals

  /** The commands that touch the list. */
  datatype ListOp = PushBack(id: Id) | PushFront(id: Id) | PopBack

  /** The list and everything BRPOP has returned from it. */
  datatype ListRun = ListRun(list: seq<Id>, popped: seq<Id>)

  function OnList(r: ListRun, op: ListOp): ListRun {
    match op
    case PushBack(id) => r.(list := r.list + [id])
    case PushFront(id) => r.(list := [id] + r.list)
    case PopBack =>
      if r.list == [] then r
      else ListRun(r.list[..|r.list| - 1], r.popped + [r.list[|r.list| - 1]])
  }

  /** A stack of immediate ids, newest last, and a queue of ids past their ETA, oldest first. */
  datatype TwoEnds = TwoEnds(stack: seq<Id>, fifo: seq<Id>, popped: seq<Id>)

  /** Popping takes the newest immediate id, and only when there is none the oldest one past its ETA. */
  function OnEnds(r: TwoEnds, op: ListOp): TwoEnds {
    match op
    case PushBack(id) => r.(stack := r.stack + [id])
    case PushFront(id) => r.(fifo := r.fifo + [id])
    case PopBack =>
      if r.stack != [] then r.(stack := r.stack[..|r.stack| - 1], popped := r.popped + [r.stack[|r.stack| - 1]])
      else if r.fifo != [] then r.(fifo := r.fifo[1..], popped := r.popped + [r.fifo[0]])
      else r
  }

  function AllOnList(r: ListRun, ops: seq<ListOp>): ListRun
    decreases |ops|
  {
    if ops == [] then r else AllOnList(OnList(r, ops[0]), ops[1..])
  }

  function AllOnEnds(r: TwoEnds, ops: seq<ListOp>): TwoEnds
    decreases |ops|
  {
    if ops == [] then r else AllOnEnds(OnEnds(r, ops[0]), ops[1..])
  }

  function Backwards(ids: seq<Id>): (r: seq<Id>)
    ensures |r| == |ids|
    ensures forall i :: 0 <= i < |ids| ==> r[i] == ids[|ids| - 1 - i]
  {
    seq(|ids|, i requires 0 <= i < |ids| => ids[|ids| - 1 - i])
  }

  /** The list shows the queue backwards, then the stack. */
  predicate Shows(r: ListRun, e: TwoEnds) {
    r.list == Backwards(e.fifo) + e.stack && r.popped == e.popped
  }

  lemma OneShows(r: ListRun, e: TwoEnds, op: ListOp)
    requires Shows(r, e)
    ensures Shows(OnList(r, op), OnEnds(e, op))
  {
    match op
    case PushBack(id) =>
      assert r.list + [id] == Backwards(e.fifo) + (e.stack + [id]);
    case PushFront(id) =>
      assert Backwards(e.fifo + [id]) == [id] + Backwards(e.fifo);
      assert [id] + r.list == Backwards(e.fifo + [id]) + e.stack;
    case PopBack =>
      if e.stack == [] && e.fifo != [] {
        assert Backwards(e.fifo[1..]) == Backwards(e.fifo)[..|e.fifo| - 1];
      }
  }

  /**
   The list refines a stack and a queue: whatever is pushed and popped, the list is the past-ETA ids in reverse order
   of arrival followed by the immediate ones in order of arrival, and BRPOP returns what the pair returns.
   */
  lemma {:induction false} ListRefinesTwoEnds(r: ListRun, e: TwoEnds, ops: seq<ListOp>)
    requires Shows(r, e)
    ensures Shows(AllOnList(r, ops), AllOnEnds(e, ops))
    decreases |ops|
  {
    if ops != [] {
      OneShows(r, e, ops[0]);
      ListRefinesTwoEnds(OnList(r, ops[0]), OnEnds(e, ops[0]), ops[1..]);
    }
  }
}
