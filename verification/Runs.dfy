/** What holds in every reachable state of the queue. */
module Runs {
  import opened Wrappers
  import opened Redis
  import opened Protocol
  import opened Accounts
  import opened Safety

  /** The hand about to push an id is the one place that id is in. */
  lemma PusherHolds(s: State, e: Event, l: Ledger)
    requires Base(s, l) && Enabled(s, e) && Pushes(s, e).Some?
    ensures var x := Pushed(s, e); x in l && l[x].place.Held? && x !in s.db.delayed && x !in s.db.list
    ensures Later(Pushes(s, e).value)
    ensures Apply(s, e).mover == s.mover && Apply(s, e).db == Push(s.db, Pushed(s, e), Pushes(s, e).value)
  {
    assert Holds(s.hands[e.key]) == Some(Pushed(s, e));
    assert AccountOk(s, Pushed(s, e), l[Pushed(s, e)]);
  }

  /** The id an event pushes. */
  function Pushed(s: State, e: Event): Id
    requires Enabled(s, e) && Pushes(s, e).Some?
  {
    match e
    case Enqueue(key) => s.hands[key].task.id
    case Deliver(key, _) => s.hands[key].delivery.task.id
  }

  /** Outside the transaction, the range the mover has read only changes by a ZADD that falls into it. */
  lemma StepKeepsExact(s: State, e: Event, l: Ledger)
    requires Inv(s, l) && Enabled(s, e) && !e.Move? && (Pushes(s, e).Some? ==> Clear(s, Pushes(s, e).value))
    ensures Exact(Apply(s, e))
  {
    if Pushes(s, e).Some? {
      PusherHolds(s, e, l);
      PushKeepsExact(s, Apply(s, e), Pushes(s, e).value, Pushed(s, e));
    } else if e.Snapshot? {
      SnapshotKeepsExact(s, l);
    } else {
      QuietKeepsExact(s, e);
    }
  }

  /** An event that neither pushes nor moves leaves the delayed set alone. */
  lemma QuietKeepsExact(s: State, e: Event)
    requires Enabled(s, e) && Pushes(s, e).None? && !e.Move?
    ensures Apply(s, e).db.delayed == s.db.delayed
    ensures !e.Range? && !e.Snapshot? ==> Apply(s, e).mover == s.mover
    ensures Exact(s) && !e.Snapshot? ==> Exact(Apply(s, e))
  {
  }

  lemma SnapshotKeepsExact(s: State, l: Ledger)
    requires Base(s, l) && Enabled(s, Snapshot)
    ensures var s' := Apply(s, Snapshot);
            if s.mover.ids == {} then s'.mover == Idle
            else s'.mover.Loaded? && s'.mover.max == s.mover.max && s'.mover.snapshot.Keys == s.mover.ids
    ensures Exact(s) ==> Exact(Apply(s, Snapshot))
  {
    forall id | id in s.mover.ids ensures Visible(s.db, id, s.clock) {
      assert id in s.db.delayed && AccountOk(s, id, l[id]);
    }
    var snapshot := map id | id in s.mover.ids && Visible(s.db, id, s.clock) :: s.db.hashes[id].content;
    assert snapshot.Keys == s.mover.ids;
    assert snapshot == map[] <==> s.mover.ids == {};
  }

  lemma PushKeepsExact(s: State, s': State, dest: Dest, x: Id)
    requires Exact(s) && Clear(s, dest)
    requires s'.mover == s.mover && s'.db == Push(s.db, x, dest)
    requires x !in s.db.delayed
    ensures Exact(s')
  {
  }

  /** The invariant is kept by every event of an orderly run. */
  lemma StepKeeps(s: State, e: Event, l: Ledger)
    requires Inv(s, l) && Enabled(s, e) && Orderly(s, e)
    ensures Inv(Apply(s, e), Next(s, e, l))
  {
    if e.Move? {
      MoveKeeps(s, e.order, l);
    } else {
      StepKeepsBase(s, e, l);
      StepKeepsExact(s, e, l);
    }
  }

  /** The accounts after a run. */
  function LedgerAfter(s: State, es: seq<Event>, l: Ledger): (l': Ledger)
    requires Inv(s, l) && Legal(s, es) && AllOrderly(s, es)
    ensures Inv(Replay(s, es), l')
    decreases |es|
  {
    if es == [] then l
    else
      StepKeeps(s, es[0], l);
      LedgerAfter(Apply(s, es[0]), es[1..], Next(s, es[0], l))
  }
}
