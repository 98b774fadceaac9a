/** Nothing is lost or doubled: the run-level theorems about where ids are. */
module Conservation {
  import opened Clock
  import opened Wrappers
  import opened Redis
  import opened Protocol
  import opened Accounts
  import opened Safety
  import opened Runs
  import Deliveries

  // Exactly one place

  /** The hands responsible for an id. */
  function Holders(s: State, id: Id): set<nat> {
    set key | key in s.hands && Holds(s.hands[key]) == Some(id)
  }

  /** How many places an id is in: its occurrences in the list, the delayed set, the hands, and the settled ids. */
  function Places(s: State, id: Id): nat {
    multiset(s.db.list)[id] + (if id in s.db.delayed then 1 else 0)
    + |Holders(s, id)| + (if id in s.settled then 1 else 0)
  }

  lemma {:induction false} OccursOnce(list: seq<Id>, id: Id)
    requires forall i, j :: 0 <= i < j < |list| ==> list[i] != list[j]
    ensures multiset(list)[id] == if id in list then 1 else 0
  {
    if list != [] {
      var init, last := list[..|list| - 1], list[|list| - 1];
      OccursOnce(init, id);
      assert list == init + [last];
      assert last !in init;
    }
  }

  lemma OnePlace(s: State, l: Ledger, id: Id)
    requires Inv(s, l)
    ensures Places(s, id) == if id in s.published then 1 else 0
  {
    OccursOnce(s.db.list, id);
    if id in l {
      assert AccountOk(s, id, l[id]);
      if l[id].place.Held? {
        assert Holds(s.hands[l[id].place.key]) == Some(id);
        assert Holders(s, id) == {l[id].place.key};
      } else {
        assert Holders(s, id) == {};
      }
    } else {
      assert Holders(s, id) == {};
    }
  }

  /**
   Conservation: in every state an orderly run reaches, each published id is in exactly one place, once, and no other
   id is anywhere.
   */
  lemma EachIdInOnePlace(s: State, es: seq<Event>)
    requires Initial(s) && Legal(s, es) && AllOrderly(s, es)
    ensures forall id :: Places(Replay(s, es), id) == if id in Replay(s, es).published then 1 else 0
  {
    InitialInv(s);
    var l := LedgerAfter(s, es, map[]);
    forall id ensures Places(Replay(s, es), id) == if id in Replay(s, es).published then 1 else 0 {
      OnePlace(Replay(s, es), l, id);
    }
  }

  /** References stay live: every waiting or delayed id has a hash that holds that id and never expires. */
  lemma ReferencesLive(s: State, es: seq<Event>, id: Id)
    requires Initial(s) && Legal(s, es) && AllOrderly(s, es)
    requires id in Replay(s, es).db.list || id in Replay(s, es).db.delayed
    ensures var s' := Replay(s, es);
            && id in s'.db.hashes && s'.db.hashes[id].expires == None && s'.db.hashes[id].content.id == id
            && (forall now :: Visible(s'.db, id, now)) && Loadable(s'.db, id, s'.clock).Some?
  {
    InitialInv(s);
    var s', l := Replay(s, es), LedgerAfter(s, es, map[]);
    assert id in l && AccountOk(s', id, l[id]);
  }

  /** Nothing will publish the id again: it is settled, or on its last attempt. */
  predicate Spent(s: State, l: Ledger, id: Id) {
    id in l &&
    match l[id].place
    case Done => true
    case Held(key) =>
      && key in s.hands && s.hands[key].Delivering?
      && (s.hands[key].delivery.stage.Saving? ||
          (s.hands[key].delivery.stage.Running? && s.hands[key].delivery.task.maxRetries == 0))
    case _ => false
  }

  lemma ExpiringIsSpent(s: State, l: Ledger, id: Id)
    requires Inv(s, l) && id in s.db.hashes && s.db.hashes[id].expires.Some?
    ensures Spent(s, l, id)
  {
    assert AccountOk(s, id, l[id]);
  }

  lemma StaysSpent(s: State, e: Event, l: Ledger, id: Id)
    requires Inv(s, l) && Spent(s, l, id) && Enabled(s, e)
    ensures Spent(Apply(s, e), Next(s, e, l), id)
  {
    match e
    case Deliver(key, event) =>
      if l[id].place == Held(key) {
        assert AccountOk(s, id, l[id]);
        Deliveries.StepConsistent(s.hands[key].delivery, event, s.clock);
      } else {
        OthersKeepSpent(s, e, l, id);
      }
    case _ => OthersKeepSpent(s, e, l, id);
  }

  lemma OthersKeepSpent(s: State, e: Event, l: Ledger, id: Id)
    requires Inv(s, l) && Spent(s, l, id) && Enabled(s, e)
    requires e.Deliver? ==> l[id].place != Held(e.key)
    ensures Spent(Apply(s, e), Next(s, e, l), id)
  {
    OthersKeepPlace(s, e, l, id);
    if l[id].place.Held? {
      OthersKeepDelivery(s, e, l[id].place.key);
    }
  }

  /** An id in no queue keeps its place and its hand unless its own hand acts. */
  lemma OthersKeepPlace(s: State, e: Event, l: Ledger, id: Id)
    requires Inv(s, l) && id in l && (l[id].place.Done? || l[id].place.Held?) && Enabled(s, e)
    requires e.Deliver? || e.Enqueue? || e.Load? ==> l[id].place != Held(e.key)
    ensures id in Next(s, e, l) && Next(s, e, l)[id].place == l[id].place
  {
    match e
    case Deliver(key, event) => DeliverKeepsPlace(s, key, event, l, id);
    case Enqueue(key) => ActorsOwn(s, key, l);
    case Load(key) => ActorsOwn(s, key, l);
    case Pop(key) => assert l[s.db.list[|s.db.list| - 1]].place == Listed;
    case Move(order) => assert s.mover.snapshot.Keys <= InRange(s.db.delayed, s.mover.max);
    case _ =>
  }

  lemma DeliverKeepsPlace(s: State, key: nat, event: Deliveries.Event, l: Ledger, id: Id)
    requires Inv(s, l) && id in l && l[id].place != Held(key) && Enabled(s, Deliver(key, event))
    ensures var l' := Next(s, Deliver(key, event), l); id in l' && l'[id].place == l[id].place
  {
    ActorsOwn(s, key, l);
  }

  /** A delivery in another hand is left alone. */
  lemma OthersKeepDelivery(s: State, e: Event, key: nat)
    requires Enabled(s, e) && key in s.hands && s.hands[key].Delivering?
    requires e.Deliver? ==> key != e.key
    ensures key in Apply(s, e).hands && Apply(s, e).hands[key] == s.hands[key]
  {
  }

  /** The id a hand is responsible for has its account in that hand. */
  lemma ActorsOwn(s: State, key: nat, l: Ledger)
    requires HandsOk(s, l) && key in s.hands
    ensures Holds(s.hands[key]).Some? ==>
              Holds(s.hands[key]).value in l && l[Holds(s.hands[key]).value].place == Held(key)
  {
  }

  /**
   An expiry is only ever set on a task that is in no queue, and once it is set the id is never put into the list or
   the delayed set again.
   */
  lemma {:induction false} ExpiringNeverRequeued(s: State, l: Ledger, es: seq<Event>, id: Id)
    requires Inv(s, l) && Legal(s, es) && AllOrderly(s, es)
    requires Spent(s, l, id) || (id in s.db.hashes && s.db.hashes[id].expires.Some?)
    ensures id !in Replay(s, es).db.list && id !in Replay(s, es).db.delayed
    decreases |es|
  {
    if id in s.db.hashes && s.db.hashes[id].expires.Some? {
      ExpiringIsSpent(s, l, id);
    }
    if es != [] {
      StepKeeps(s, es[0], l);
      StaysSpent(s, es[0], l, id);
      ExpiringNeverRequeued(Apply(s, es[0]), Next(s, es[0], l), es[1..], id);
    }
  }

  // The mover

  /** The transaction clears exactly the ids it pushes, each pushed once. */
  lemma MoverExactness(s: State, l: Ledger, order: seq<Id>)
    requires Inv(s, l) && Enabled(s, Move(order))
    ensures Apply(s, Move(order)).db.list == s.db.list + order
    ensures Apply(s, Move(order)).db.delayed == s.db.delayed - (set id | id in order)
    ensures forall id :: id in order ==> id in s.db.delayed
  {
    MovesItsRange(s, l, order);
  }

  lemma MovesItsRange(s: State, l: Ledger, order: seq<Id>)
    requires MoverOk(s, l) && Exact(s) && Enabled(s, Move(order))
    ensures Apply(s, Move(order)).db.list == s.db.list + order
    ensures Apply(s, Move(order)).db.delayed == s.db.delayed - (set id | id in order)
    ensures forall id :: id in order ==> id in s.db.delayed
  {
    MovedStore(s, order, l);
    var ids := set id | id in order;
    assert ids == InRange(s.db.delayed, s.mover.max);
  }

  /** Every ZADD of the events falls after the mover's range. */
  predicate AllClear(s: State, es: seq<Event>)
    requires Legal(s, es)
    decreases |es|
  {
    es == [] ||
    ((Pushes(s, es[0]).Some? ==> Clear(s, Pushes(s, es[0]).value)) && AllClear(Apply(s, es[0]), es[1..]))
  }

  /** Publishers, workers and cancels between the mover's first read and its transaction. */
  predicate InWindow(s: State, es: seq<Event>)
    requires Legal(s, es)
    decreases |es|
  {
    es == [] ||
    (&& !es[0].Move? && (es[0].Submit? || es[0].CancelSave? ==> Orderly(s, es[0]))
     && InWindow(Apply(s, es[0]), es[1..]))
  }

  /** The mover is past its first read. */
  predicate Busy(s: State) {
    s.mover.Ranged? || s.mover.Loaded?
  }

  /** An id in the mover's range that its first read did not see; only the transaction can take it out again. */
  predicate Stray(s: State, x: Id) {
    && Busy(s) && x in InRange(s.db.delayed, s.mover.max)
    && x !in (if s.mover.Ranged? then s.mover.ids else s.mover.snapshot.Keys)
  }

  lemma StrayStays(s: State, l: Ledger, e: Event, x: Id)
    requires Base(s, l) && Stray(s, x) && Enabled(s, e) && !e.Move?
    ensures Stray(Apply(s, e), x)
  {
    if Pushes(s, e).Some? {
      PusherHolds(s, e, l);
      StrayAmong(s, Apply(s, e), x, Runs.Pushed(s, e), Pushes(s, e).value);
    } else if e.Snapshot? {
      SnapshotKeepsExact(s, l);
      QuietKeepsExact(s, e);
    } else {
      QuietKeepsExact(s, e);
    }
  }

  lemma StrayAmong(s: State, s': State, x: Id, y: Id, dest: Dest)
    requires Stray(s, x) && y !in s.db.delayed && s'.mover == s.mover && s'.db == Push(s.db, y, dest)
    ensures Stray(s', x)
  {
  }

  /** A ZADD into the range leaves a stray. */
  lemma UnclearStrays(s: State, l: Ledger, e: Event)
    requires Base(s, l) && Exact(s) && Enabled(s, e)
    requires Pushes(s, e).Some? && !Clear(s, Pushes(s, e).value)
    ensures Stray(Apply(s, e), Runs.Pushed(s, e))
  {
    PusherHolds(s, e, l);
    ZaddStrays(s, Apply(s, e), Runs.Pushed(s, e), Pushes(s, e).value);
  }

  lemma ZaddStrays(s: State, s': State, x: Id, dest: Dest)
    requires Exact(s) && !Clear(s, dest) && Later(dest) && x !in s.db.delayed
    requires s'.mover == s.mover && s'.db == Push(s.db, x, dest)
    ensures Stray(s', x)
  {
  }

  lemma {:induction false} StrayRemains(s: State, l: Ledger, es: seq<Event>, x: Id)
    requires Base(s, l) && Stray(s, x) && Legal(s, es) && InWindow(s, es)
    ensures Stray(Replay(s, es), x)
    decreases |es|
  {
    if es != [] {
      StepKeepsBase(s, es[0], l);
      StrayStays(s, l, es[0], x);
      StrayRemains(Apply(s, es[0]), Next(s, es[0], l), es[1..], x);
    }
  }

  /**
   The mover's window: whatever publishers, workers and cancels do between the mover's first read and its transaction,
   the transaction will clear what the mover read exactly when no ZADD in between fell into the range.
   */
  lemma {:induction false} WindowExactness(s: State, l: Ledger, es: seq<Event>)
    requires Inv(s, l) && Busy(s) && Legal(s, es) && InWindow(s, es)
    ensures Exact(Replay(s, es)) <==> AllClear(s, es)
    decreases |es|
  {
    if es != [] {
      var e, s' := es[0], Apply(s, es[0]);
      StepKeepsBase(s, e, l);
      if Pushes(s, e).Some? && !Clear(s, Pushes(s, e).value) {
        UnclearStrays(s, l, e);
        StrayRemains(s', Next(s, e, l), es[1..], Runs.Pushed(s, e));
      } else {
        StepKeepsExact(s, e, l);
        assert Busy(s') by { StaysBusy(s, l, e); }
        WindowExactness(s', Next(s, e, l), es[1..]);
      }
    }
  }

  lemma StaysBusy(s: State, l: Ledger, e: Event)
    requires Base(s, l) && Busy(s) && Enabled(s, e) && !e.Move?
    ensures Busy(Apply(s, e))
  {
    if e.Snapshot? {
      SnapshotKeepsExact(s, l);
    } else if Pushes(s, e).Some? {
      PusherHolds(s, e, l);
    } else {
      QuietKeepsExact(s, e);
    }
  }

  /** A ZADD with its score's second after the clock's is always clear of the mover. */
  lemma LateZaddIsClear(s: State, l: Ledger, dest: Dest)
    requires Base(s, l) && (dest.At? ==> dest.score > Second(s.clock))
    ensures Clear(s, dest)
  {
  }

  /** Every ZADD is prompt. */
  predicate AllPrompt(s: State, es: seq<Event>)
    requires Legal(s, es)
    decreases |es|
  {
    es == [] || (Prompt(s, es[0]) && Considerate(s, es[0]) && AllPrompt(Apply(s, es[0]), es[1..]))
  }

  /** Runs whose ZADDs are all made before the second of their score are orderly, whatever the mover is doing. */
  lemma {:induction false} PromptRunsAreOrderly(s: State, es: seq<Event>, l: Ledger)
    requires Inv(s, l) && Legal(s, es) && AllPrompt(s, es)
    ensures AllOrderly(s, es)
    decreases |es|
  {
    if es != [] {
      if Pushes(s, es[0]).Some? {
        LateZaddIsClear(s, l, Pushes(s, es[0]).value);
      }
      StepKeeps(s, es[0], l);
      PromptRunsAreOrderly(Apply(s, es[0]), es[1..], Next(s, es[0], l));
    }
  }

  /** An ETA at least a second ahead, filed and pushed before the second it falls into, is clear of the mover. */
  lemma PromptZaddIsClear(s: State, l: Ledger, eta: Time, filed: Time)
    requires Base(s, l) && filed <= s.clock && s.clock < Floor(eta)
    ensures Clear(s, Destination(eta, filed))
  {
  }

  /** The cost of an unclear ZADD: the transaction drops the id, and it is nowhere afterwards. */
  lemma UnclearZaddIsLost(s: State, l: Ledger, x: Id, order: seq<Id>)
    requires Base(s, l) && Stray(s, x) && Enabled(s, Move(order))
    ensures x in s.published && Places(s, x) == 1
    ensures x in Apply(s, Move(order)).published && Places(Apply(s, Move(order)), x) == 0
  {
    var s' := Apply(s, Move(order));
    DelayedOnly(s, l, x);
    MovedStore(s, order, l);
    assert x !in s'.db.list && x !in s'.db.delayed;
    assert Holders(s', x) == Holders(s, x);
  }

  lemma DelayedOnly(s: State, l: Ledger, x: Id)
    requires Base(s, l) && x in s.db.delayed
    ensures x in s.published && x !in s.db.list && x !in s.settled && Holders(s, x) == {}
    ensures multiset(s.db.list)[x] == 0 && Places(s, x) == 1
  {
    assert l[x].place == Delayed;
    OccursOnce(s.db.list, x);
  }
}
