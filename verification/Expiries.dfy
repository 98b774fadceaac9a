/** When hashes expire: a task stored as succeeded is never kept for ever, unless it asks for that. */
module Expiries {
  import opened Clock
  import opened Wrappers
  import opened Tasks
  import opened Redis
  import opened Protocol
  import opened Accounts
  import opened Safety
  import opened Runs
  import Deliveries

  /** A hash that says its task succeeded has an expiry, if the task's TTL has a whole second. */
  predicate Expires(s: State, id: Id) {
    var hashes := s.db.hashes;
    id in hashes && hashes[id].content.status == SUCCEEDED && WholeSeconds(hashes[id].content.ttl) != 0 ==>
      hashes[id].expires.Some?
  }

  ghost predicate AllExpire(s: State) {
    forall id :: Expires(s, id)
  }

  /** A save gives a succeeded task its expiry, and leaves no other task looking like one. */
  lemma SavedExpires(s: State, t: TaskValue, ttl: Option<int>, s': State)
    requires AllExpire(s) && s'.db == Protocol.Saved(s.db, t, ttl, s.clock)
    requires t.status == SUCCEEDED ==> ttl == Ttl(t)
    ensures AllExpire(s')
  {
    forall id ensures Expires(s', id) {
      assert Expires(s, id);
    }
  }

  lemma FileExpires(s: State, key: nat, l: Ledger)
    requires Inv(s, l) && Enabled(s, File(key)) && AllExpire(s)
    ensures AllExpire(Apply(s, File(key)))
  {
    var t := s.hands[key].task;
    assert Holds(s.hands[key]) == Some(t.id);
    assert AccountOk(s, t.id, l[t.id]);
    SavedExpires(s, t, None, Apply(s, File(key)));
  }

  lemma DeliverExpires(s: State, key: nat, event: Deliveries.Event, l: Ledger)
    requires Inv(s, l) && Enabled(s, Deliver(key, event)) && AllExpire(s)
    ensures AllExpire(Apply(s, Deliver(key, event)))
  {
    var d, s' := s.hands[key].delivery, Apply(s, Deliver(key, event));
    match event
    case Begin => SavedExpires(s, d.task, Ttl(d.task), s');
    case Save => SavedExpires(s, d.task, Ttl(d.task), s');
    case StoreRetry =>
      assert Holds(s.hands[key]) == Some(d.task.id);
      assert AccountOk(s, d.task.id, l[d.task.id]);
      SavedExpires(s, d.task, None, s');
    case _ =>
      assert s'.db.hashes == s.db.hashes;
      SameHashes(s, s');
  }

  lemma SameHashes(s: State, s': State)
    requires AllExpire(s) && s'.db.hashes == s.db.hashes
    ensures AllExpire(s')
  {
    forall id ensures Expires(s', id) {
      assert Expires(s, id);
    }
  }

  lemma MoveExpires(s: State, order: seq<Id>, l: Ledger)
    requires Inv(s, l) && Enabled(s, Move(order)) && AllExpire(s)
    ensures AllExpire(Apply(s, Move(order)))
  {
    var s' := Apply(s, Move(order));
    MovedStore(s, order, l);
    forall id ensures Expires(s', id) {
      assert Expires(s, id);
      if id in s.mover.snapshot {
        MovedHash(s, order, id);
        assert QueuedTask(s.mover.snapshot[id], id, l[id]);
      }
    }
  }

  lemma StepExpires(s: State, e: Event, l: Ledger)
    requires Inv(s, l) && Enabled(s, e) && AllExpire(s)
    ensures AllExpire(Apply(s, e))
  {
    match e
    case File(key) => FileExpires(s, key, l);
    case Deliver(key, event) => DeliverExpires(s, key, event, l);
    case CancelSave(key) => SavedExpires(s, s.cancels[key], Ttl(s.cancels[key]), Apply(s, e));
    case Move(order) => MoveExpires(s, order, l);
    case _ =>
      HashesLeft(s, e);
      SameHashes(s, Apply(s, e));
  }

  lemma HashesLeft(s: State, e: Event)
    requires Enabled(s, e) && !e.File? && !e.Deliver? && !e.CancelSave? && !e.Move?
    ensures Apply(s, e).db.hashes == s.db.hashes
  {
  }

  lemma {:induction false} RunExpires(s: State, es: seq<Event>, l: Ledger)
    requires Inv(s, l) && Legal(s, es) && AllOrderly(s, es) && AllExpire(s)
    ensures AllExpire(Replay(s, es))
    decreases |es|
  {
    if es != [] {
      StepKeeps(s, es[0], l);
      StepExpires(s, es[0], l);
      RunExpires(Apply(s, es[0]), es[1..], Next(s, es[0], l));
    }
  }

  /** In every state an orderly run reaches, whatever is stored as succeeded with a TTL expires. */
  lemma SucceededExpires(s: State, es: seq<Event>, id: Id)
    requires Initial(s) && Legal(s, es) && AllOrderly(s, es)
    requires var h := Replay(s, es).db.hashes;
             id in h && h[id].content.status == SUCCEEDED && WholeSeconds(h[id].content.ttl) != 0
    ensures Replay(s, es).db.hashes[id].expires.Some?
  {
    InitialInv(s);
    RunExpires(s, es, map[]);
    assert Expires(Replay(s, es), id);
  }

  /**
   The last save of a delivery that succeeded stores that, settles the id, and sets the expiry from the moment of the
   save; without a whole second of TTL it sets none.
   */
  lemma SuccessIsSaved(s: State, key: nat)
    requires Enabled(s, Deliver(key, Deliveries.Save)) && s.hands[key].delivery.task.status == SUCCEEDED
    ensures var t, s' := s.hands[key].delivery.task, Apply(s, Deliver(key, Deliveries.Save));
            && t.id in s'.settled && t.id in s'.db.hashes && s'.db.hashes[t.id].content.status == SUCCEEDED
            && s'.db.hashes[t.id].expires ==
               if WholeSeconds(t.ttl) != 0 then Some(s.clock + WholeSeconds(t.ttl) * SECOND)
               else if Visible(s.db, t.id, s.clock) then s.db.hashes[t.id].expires else None
  {
  }
}
