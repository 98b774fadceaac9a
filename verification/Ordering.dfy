/** The order in which waiting ids are delivered: every reachable list is a queue shown backwards, then a stack. */
module Ordering {
  import opened Redis
  import opened Protocol

  function PushOps(id: Id, dest: Dest): seq<ListOp> {
    match dest
    case Back => [PushBack(id)]
    case Front => [PushFront(id)]
    case At(_) => []
  }

  function PushAll(ids: seq<Id>): (ops: seq<ListOp>)
    ensures |ops| == |ids|
  {
    seq(|ids|, i requires 0 <= i < |ids| => PushBack(ids[i]))
  }

  /** The ids the mover's transaction pushes, in order. */
  function MovedIds(s: State, order: seq<Id>): seq<Id>
    requires Enabled(s, Move(order))
  {
    seq(|order|, i requires 0 <= i < |order| => s.mover.snapshot[order[i]].id)
  }

  /** The list commands of an event. */
  function OpsOf(s: State, e: Event): seq<ListOp>
    requires Enabled(s, e)
  {
    match e
    case Enqueue(key) => PushOps(s.hands[key].task.id, s.hands[key].dest)
    case Deliver(key, PushRetry) => PushOps(s.hands[key].delivery.task.id, s.hands[key].delivery.stage.dest)
    case Pop(_) => [PopBack]
    case Move(order) => PushAll(MovedIds(s, order))
    case _ => []
  }

  function RunOps(s: State, es: seq<Event>): seq<ListOp>
    requires Legal(s, es)
    decreases |es|
  {
    if es == [] then [] else OpsOf(s, es[0]) + RunOps(Apply(s, es[0]), es[1..])
  }

  lemma {:induction false} OpsJoin(r: ListRun, a: seq<ListOp>, b: seq<ListOp>)
    ensures AllOnList(r, a + b) == AllOnList(AllOnList(r, a), b)
    decreases |a|
  {
    if a == [] {
      assert a + b == b;
    } else {
      assert (a + b)[1..] == a[1..] + b;
      OpsJoin(OnList(r, a[0]), a[1..], b);
    }
  }

  lemma {:induction false} PushesAppend(r: ListRun, ids: seq<Id>)
    ensures AllOnList(r, PushAll(ids)).list == r.list + ids
    decreases |ids|
  {
    if ids == [] {
      assert r.list + ids == r.list;
    } else {
      assert PushAll(ids)[1..] == PushAll(ids[1..]);
      PushesAppend(r.(list := r.list + [ids[0]]), ids[1..]);
      assert r.list + ids == r.list + [ids[0]] + ids[1..];
    }
  }

  lemma PushOnList(db: Db, r: ListRun, id: Id, dest: Dest)
    requires r.list == db.list
    ensures AllOnList(r, PushOps(id, dest)).list == Push(db, id, dest).list
  {
    assert PushOps(id, dest) != [] ==> PushOps(id, dest)[1..] == [];
  }

  /** An event does to the list what its commands do. */
  lemma StepOnList(s: State, e: Event, r: ListRun)
    requires Enabled(s, e) && r.list == s.db.list
    ensures AllOnList(r, OpsOf(s, e)).list == Apply(s, e).db.list
  {
    match e
    case Enqueue(key) => PushOnList(s.db, r, s.hands[key].task.id, s.hands[key].dest);
    case Deliver(key, PushRetry) =>
      PushOnList(s.db, r, s.hands[key].delivery.task.id, s.hands[key].delivery.stage.dest);
    case Pop(_) => assert [PopBack][1..] == [];
    case Move(order) => PushesAppend(r, MovedIds(s, order));
    case _ =>
  }

  lemma {:induction false} RunOnList(s: State, es: seq<Event>, r: ListRun)
    requires Legal(s, es) && r.list == s.db.list
    ensures AllOnList(r, RunOps(s, es)).list == Replay(s, es).db.list
    decreases |es|
  {
    if es != [] {
      StepOnList(s, es[0], r);
      RunOnList(Apply(s, es[0]), es[1..], AllOnList(r, OpsOf(s, es[0])));
      OpsJoin(r, OpsOf(s, es[0]), RunOps(Apply(s, es[0]), es[1..]));
    }
  }

  /** The stack and the queue after a run from the empty one. */
  function Ends(s: State, es: seq<Event>): TwoEnds
    requires Legal(s, es)
  {
    AllOnEnds(TwoEnds([], [], []), RunOps(s, es))
  }

  lemma LastShown(list: seq<Id>, ends: TwoEnds)
    requires list == Backwards(ends.fifo) + ends.stack && list != []
    ensures list[|list| - 1] == if ends.stack != [] then ends.stack[|ends.stack| - 1] else ends.fifo[0]
  {
  }

  lemma ShownFromEmpty(ops: seq<ListOp>)
    ensures AllOnList(ListRun([], []), ops).list ==
            var ends := AllOnEnds(TwoEnds([], [], []), ops); Backwards(ends.fifo) + ends.stack
  {
    assert Backwards([]) + [] == [];
    ListRefinesTwoEnds(ListRun([], []), TwoEnds([], [], []), ops);
  }

  /**
   In every reachable state the list is the past-ETA ids in reverse order of arrival followed by the immediate ones in
   order of arrival, so the next pop takes the newest immediate id, and only without one the oldest past-ETA id.
   */
  lemma ListShowsArrivals(s: State, es: seq<Event>)
    requires Initial(s) && Legal(s, es)
    ensures Replay(s, es).db.list == Backwards(Ends(s, es).fifo) + Ends(s, es).stack
    ensures var list, ends := Replay(s, es).db.list, Ends(s, es);
            list != [] ==>
              list[|list| - 1] == if ends.stack != [] then ends.stack[|ends.stack| - 1] else ends.fifo[0]
  {
    RunOnList(s, es, ListRun([], []));
    ShownFromEmpty(RunOps(s, es));
    if Replay(s, es).db.list != [] {
      LastShown(Replay(s, es).db.list, Ends(s, es));
    }
  }
}
