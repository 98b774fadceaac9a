/** Canceled is absorbing, and when a cancellation is lost. */
module Cancellation {
  import opened Clock
  import opened Wrappers
  import opened Tasks
  import opened Redis
  import opened Protocol
  import opened Accounts
  import opened Safety
  import opened Runs
  import Draining
  import Deliveries

  /** The id waits for a worker: listed, delayed, or popped and not read yet. */
  predicate Waiting(s: State, l: Ledger, id: Id) {
    id in l &&
    match l[id].place
    case Listed => true
    case Delayed => true
    case Held(key) => key in s.hands && s.hands[key].Popped?
    case Done => false
  }

  /** The stored task is canceled, and so is the copy the mover may be about to write back. */
  predicate Quashed(s: State, id: Id) {
    && id in s.db.hashes && s.db.hashes[id].content.status == CANCELED
    && (s.mover.Loaded? && id in s.mover.snapshot ==> s.mover.snapshot[id].status == CANCELED)
  }

  /** A canceled task on its way to being dropped, or already dropped. */
  predicate Dead(s: State, l: Ledger, id: Id) {
    Quashed(s, id) && id in l && (Waiting(s, l, id) || l[id].place == Done)
  }

  /** Delayed before listed before popped before dropped. */
  function Nearness(l: Ledger, id: Id): nat
    requires id in l
  {
    match l[id].place
    case Delayed => 3
    case Listed => 2
    case Held(_) => 1
    case Done => 0
  }

  /** No write makes a dead task's stored status anything but canceled. */
  lemma StaysQuashed(s: State, e: Event, l: Ledger, id: Id)
    requires Inv(s, l) && Dead(s, l, id) && Enabled(s, e)
    ensures Quashed(Apply(s, e), id)
  {
    match e
    case File(key) => FilingSpares(s, key, l, id);
    case Deliver(key, event) => DeliveriesSpare(s, key, event, l, id);
    case CancelSave(key) => CancelSpares(s, key, l, id);
    case Move(order) => MoveSpares(s, order, l, id);
    case _ => ReadsSpare(s, e, id);
  }

  lemma ReadsSpare(s: State, e: Event, id: Id)
    requires Enabled(s, e) && Quashed(s, id)
    requires !e.File? && !e.Deliver? && !e.CancelSave? && !e.Move?
    ensures Quashed(Apply(s, e), id)
  {
    if !e.Snapshot? {
      assert Apply(s, e).db.hashes == s.db.hashes;
    }
  }

  lemma FilingSpares(s: State, key: nat, l: Ledger, id: Id)
    requires Inv(s, l) && Dead(s, l, id) && Enabled(s, File(key))
    ensures Quashed(Apply(s, File(key)), id)
  {
    assert Holds(s.hands[key]) == Some(s.hands[key].task.id);
  }

  lemma CancelSpares(s: State, key: nat, l: Ledger, id: Id)
    requires CancelsOk(s) && Quashed(s, id) && Enabled(s, CancelSave(key))
    ensures Quashed(Apply(s, CancelSave(key)), id)
  {
  }

  lemma MoveSpares(s: State, order: seq<Id>, l: Ledger, id: Id)
    requires Inv(s, l) && Quashed(s, id) && Enabled(s, Move(order))
    ensures Quashed(Apply(s, Move(order)), id)
  {
    MovedStore(s, order, l);
    if id in s.mover.snapshot {
      assert Apply(s, Move(order)).db.hashes[id] == WrittenBack(s.db, id, s.mover.snapshot[id], s.clock);
    }
  }

  /** A delivery in flight is never of a dead task. */
  lemma DeliveriesSpare(s: State, key: nat, event: Deliveries.Event, l: Ledger, id: Id)
    requires Inv(s, l) && Dead(s, l, id) && Enabled(s, Deliver(key, event))
    ensures s.hands[key].delivery.stage.Closed? || s.hands[key].delivery.task.id != id
    ensures Quashed(Apply(s, Deliver(key, event)), id)
  {
    var d := s.hands[key].delivery;
    if !d.stage.Closed? {
      assert Holds(s.hands[key]) == Some(d.task.id);
    }
    OtherDelivery(s, key, event, id);
  }

  lemma OtherDelivery(s: State, key: nat, event: Deliveries.Event, id: Id)
    requires Enabled(s, Deliver(key, event)) && Quashed(s, id)
    requires s.hands[key].delivery.stage.Closed? || s.hands[key].delivery.task.id != id
    ensures Quashed(Apply(s, Deliver(key, event)), id)
  {
  }

  /** A dead task only comes nearer to being dropped. */
  lemma StaysDead(s: State, e: Event, l: Ledger, id: Id)
    requires Inv(s, l) && Dead(s, l, id) && Enabled(s, e)
    ensures Dead(Apply(s, e), Next(s, e, l), id)
    ensures Nearness(Next(s, e, l), id) <= Nearness(l, id)
    ensures !Draining.StartsHandler(s, e, id)
  {
    StaysQuashed(s, e, l, id);
    if e.Deliver? {
      DeliveriesSpare(s, e.key, e.event, l, id);
    }
    if e.Submit? || l[id].place.Done? {
      StaysDone(s, e, l, id);
    } else {
      ComesNearer(s, e, l, id);
    }
  }

  lemma StaysDone(s: State, e: Event, l: Ledger, id: Id)
    requires Inv(s, l) && id in l && Enabled(s, e) && (e.Submit? || l[id].place.Done?)
    ensures id in Next(s, e, l) && Next(s, e, l)[id] == l[id]
    ensures Waiting(s, l, id) ==> Waiting(Apply(s, e), Next(s, e, l), id)
  {
    if !e.Submit? {
      Draining.OtherAccount(s, e, l, id);
    }
  }

  lemma ComesNearer(s: State, e: Event, l: Ledger, id: Id)
    requires Inv(s, l) && Waiting(s, l, id) && Quashed(s, id) && Enabled(s, e) && !e.Submit?
    requires e.Deliver? ==> s.hands[e.key].delivery.stage.Closed? || s.hands[e.key].delivery.task.id != id
    ensures id in Next(s, e, l) && Nearness(Next(s, e, l), id) <= Nearness(l, id)
    ensures Waiting(Apply(s, e), Next(s, e, l), id) || Next(s, e, l)[id].place == Done
  {
    if Draining.Actor(s, e) == Some(id) {
      ActingComesNearer(s, e, l, id);
    } else if e.Move? && id in s.mover.snapshot {
      assert id in InRange(s.db.delayed, s.mover.max);
    } else {
      Draining.OtherAccount(s, e, l, id);
      if l[id].place.Held? {
        Draining.OtherHand(s, e, l, id, l[id].place.key);
      }
    }
  }

  lemma ActingComesNearer(s: State, e: Event, l: Ledger, id: Id)
    requires Inv(s, l) && Waiting(s, l, id) && Quashed(s, id) && Enabled(s, e) && Draining.Actor(s, e) == Some(id)
    requires e.Deliver? ==> s.hands[e.key].delivery.stage.Closed? || s.hands[e.key].delivery.task.id != id
    ensures e.Pop? || e.Load?
    ensures id in Next(s, e, l) && Nearness(Next(s, e, l), id) <= Nearness(l, id)
    ensures Waiting(Apply(s, e), Next(s, e, l), id) || Next(s, e, l)[id].place == Done
  {
    if e.Load? {
      LoadFinds(s, e.key, l);
    }
  }

  /**
   Canceled is absorbing: once a waiting task's stored status is canceled, no run ever starts its handler, changes its
   stored status or puts it back into a queue it has left.
   */
  lemma {:induction false} CanceledIsAbsorbing(s: State, es: seq<Event>, l: Ledger, id: Id)
    requires Inv(s, l) && Legal(s, es) && AllOrderly(s, es) && Dead(s, l, id)
    ensures Draining.Starts(s, es, id) == 0
    ensures Dead(Replay(s, es), LedgerAfter(s, es, l), id)
    ensures Nearness(LedgerAfter(s, es, l), id) <= Nearness(l, id)
    decreases |es|
  {
    if es != [] {
      StepKeeps(s, es[0], l);
      StaysDead(s, es[0], l, id);
      CanceledIsAbsorbing(Apply(s, es[0]), es[1..], Next(s, es[0], l), id);
    }
  }

  /** A task that timed out is dead as soon as it has been requeued: it is requeued once and then dropped. */
  lemma TimedOutIsDead(s: State, key: nat, l: Ledger)
    requires Inv(s, l) && Enabled(s, Deliver(key, Deliveries.PushRetry))
    requires Orderly(s, Deliver(key, Deliveries.PushRetry))
    requires s.hands[key].delivery.task.status == CANCELED
    ensures var e := Deliver(key, Deliveries.PushRetry);
            Dead(Apply(s, e), Next(s, e, l), s.hands[key].delivery.task.id)
  {
    var id := s.hands[key].delivery.task.id;
    assert Holds(s.hands[key]) == Some(id);
    assert AccountOk(s, id, l[id]);
  }

  /** The mover holds a copy of the task from before it was canceled, and will write it back. */
  predicate OlderCopy(s: State, id: Id) {
    s.mover.Loaded? && id in s.mover.snapshot && s.mover.snapshot[id].status != CANCELED
  }

  lemma CancelKills(s: State, key: nat, l: Ledger, id: Id)
    requires Inv(s, l) && Enabled(s, CancelSave(key)) && Orderly(s, CancelSave(key))
    requires s.cancels[key].id == id && Waiting(s, l, id)
    ensures Dead(Apply(s, CancelSave(key)), l, id) <==> !OlderCopy(s, id)
  {
    SavedHash(s, s.cancels[key], Ttl(s.cancels[key]));
  }

  /** No orderly run from here starts the handler. */
  ghost predicate NeverStarts(s: State, id: Id) {
    forall es :: Legal(s, es) && AllOrderly(s, es) ==> Draining.Starts(s, es, id) == 0
  }

  lemma DeadNeverStarts(s: State, l: Ledger, id: Id)
    requires Inv(s, l) && Dead(s, l, id)
    ensures NeverStarts(s, id)
  {
    forall es | Legal(s, es) && AllOrderly(s, es) ensures Draining.Starts(s, es, id) == 0 {
      CanceledIsAbsorbing(s, es, l, id);
    }
  }

  lemma StartsAtOnce(s: State, e: Event, id: Id)
    requires Enabled(s, e) && Orderly(s, e) && Draining.StartsHandler(s, e, id)
    ensures Legal(s, [e]) && AllOrderly(s, [e]) && Draining.Starts(s, [e], id) > 0
  {
    assert [e][1..] == [];
    assert Legal(Apply(s, e), []);
  }

  lemma StartsAfter(s: State, e: Event, es: seq<Event>, id: Id)
    requires Enabled(s, e) && Orderly(s, e) && Legal(Apply(s, e), es) && AllOrderly(Apply(s, e), es)
    requires Draining.Starts(Apply(s, e), es, id) > 0
    ensures Legal(s, [e] + es) && AllOrderly(s, [e] + es) && Draining.Starts(s, [e] + es, id) > 0
  {
    assert ([e] + es)[1..] == es;
  }

  /** The next id to be popped, with a task that is not canceled, can have its handler started. */
  lemma NextStarts(s: State, l: Ledger, id: Id, key: nat)
    requires Inv(s, l) && s.db.list != [] && s.db.list[|s.db.list| - 1] == id && key !in s.hands
    requires id in s.db.hashes && s.db.hashes[id].content.status != CANCELED
    ensures var s1 := Apply(s, Pop(key));
            && Enabled(s1, Load(key))
            && var s2, begin := Apply(s1, Load(key)), Deliver(key, Deliveries.Begin);
               Enabled(s2, begin) && Draining.StartsHandler(s2, begin, id)
  {
    StepKeeps(s, Pop(key), l);
    LoadStarts(Apply(s, Pop(key)), Next(s, Pop(key), l), id, key);
  }

  lemma LoadStarts(s: State, l: Ledger, id: Id, key: nat)
    requires Inv(s, l) && key in s.hands && s.hands[key] == Hand.Popped(id)
    requires id in s.db.hashes && s.db.hashes[id].content.status != CANCELED
    ensures Enabled(s, Load(key))
    ensures var s', begin := Apply(s, Load(key)), Deliver(key, Deliveries.Begin);
            Enabled(s', begin) && Draining.StartsHandler(s', begin, id)
  {
    LoadFinds(s, key, l);
  }

  lemma PopStarts(s: State, l: Ledger, id: Id, key: nat) returns (es: seq<Event>)
    requires Inv(s, l) && s.db.list != [] && s.db.list[|s.db.list| - 1] == id && key !in s.hands
    requires id in s.db.hashes && s.db.hashes[id].content.status != CANCELED
    ensures Legal(s, es) && AllOrderly(s, es) && Draining.Starts(s, es, id) > 0
  {
    NextStarts(s, l, id, key);
    var begin := Deliver(key, Deliveries.Begin);
    StartsAtOnce(Apply(Apply(s, Pop(key)), Load(key)), begin, id);
    StartsAfter(Apply(s, Pop(key)), Load(key), [begin], id);
    StartsAfter(s, Pop(key), [Load(key)] + [begin], id);
    es := [Pop(key)] + ([Load(key)] + [begin]);
  }

  lemma MoveLeavesLast(s: State, l: Ledger, order: seq<Id>, id: Id)
    requires Inv(s, l) && OlderCopy(s, id) && Enabled(s, Move(order)) && order[|order| - 1] == id
    ensures var s' := Apply(s, Move(order));
            && s'.hands == s.hands && s'.db.list != [] && s'.db.list[|s'.db.list| - 1] == id
            && id in s'.db.hashes && s'.db.hashes[id].content.status != CANCELED
  {
    MovedStore(s, order, l);
    RestoresStatus(s, order, l, id);
  }

  ghost function OrderWithLast(ids: set<Id>, id: Id): (order: seq<Id>)
    requires id in ids
    ensures order != [] && order[|order| - 1] == id
    ensures forall x :: x in order <==> x in ids
    ensures forall i, j :: 0 <= i < j < |order| ==> order[i] != order[j]
  {
    Draining.Enumeration(ids - {id}) + [id]
  }

  lemma MoveThenStarts(s: State, l: Ledger, order: seq<Id>, key: nat, id: Id) returns (es: seq<Event>)
    requires Inv(s, l) && OlderCopy(s, id) && Enabled(s, Move(order)) && order[|order| - 1] == id && key !in s.hands
    ensures Legal(s, es) && AllOrderly(s, es) && Draining.Starts(s, es, id) > 0
  {
    StepKeeps(s, Move(order), l);
    MoveLeavesLast(s, l, order, id);
    var next := PopStarts(Apply(s, Move(order)), Next(s, Move(order), l), id, key);
    StartsAfter(s, Move(order), next, id);
    es := [Move(order)] + next;
  }

  /** The mover's transaction with `id` pushed last, a pop, a load, and the handler starts. */
  lemma OlderCopyStarts(s: State, l: Ledger, id: Id) returns (es: seq<Event>)
    requires Inv(s, l) && OlderCopy(s, id)
    ensures Legal(s, es) && AllOrderly(s, es) && Draining.Starts(s, es, id) > 0
  {
    es := MoveThenStarts(s, l, OrderWithLast(s.mover.snapshot.Keys, id), Draining.Above(s.hands.Keys), id);
  }

  /**
   A `Cancel` of a waiting task does what it is for, that is no later run starts the handler, exactly when its save
   finds the mover without an older copy of the task.
   */
  lemma CancelStopsHandler(s: State, key: nat, l: Ledger, id: Id)
    requires Inv(s, l) && Enabled(s, CancelSave(key)) && Orderly(s, CancelSave(key))
    requires s.cancels[key].id == id && Waiting(s, l, id)
    ensures NeverStarts(Apply(s, CancelSave(key)), id) <==> !OlderCopy(s, id)
  {
    var s' := Apply(s, CancelSave(key));
    CancelKills(s, key, l, id);
    StepKeeps(s, CancelSave(key), l);
    if OlderCopy(s, id) {
      var es := OlderCopyStarts(s', l, id);
    } else {
      DeadNeverStarts(s', l, id);
    }
  }

  // What a caller can see

  /** The mover's reads, the part of a tick that `Cancel` cannot see. */
  predicate Reads(es: seq<Event>) {
    forall i :: 0 <= i < |es| ==> es[i].Range? || es[i].Snapshot?
  }

  /** Whatever the mover reads before the save, no later run starts the handler. */
  ghost predicate CancelIsSafe(s: State, key: nat, id: Id) {
    forall es :: Legal(s, es) && Reads(es) && Enabled(Replay(s, es), CancelSave(key)) ==>
      NeverStarts(Apply(Replay(s, es), CancelSave(key)), id)
  }

  lemma {:induction false} ReadsKeep(s: State, es: seq<Event>, l: Ledger)
    requires Inv(s, l) && Legal(s, es) && Reads(es)
    ensures Inv(Replay(s, es), l) && Replay(s, es) == s.(mover := Replay(s, es).mover)
    decreases |es|
  {
    if es != [] {
      StepKeeps(s, es[0], l);
      ReadsKeep(Apply(s, es[0]), es[1..], l);
    }
  }

  lemma CopiesAreDue(s: State, l: Ledger, id: Id)
    requires MoverOk(s, l)
    ensures OlderCopy(s, id) ==> id in s.db.delayed && s.db.delayed[id] <= Second(s.clock)
  {
    if OlderCopy(s, id) {
      assert id in InRange(s.db.delayed, s.mover.max);
    }
  }

  /** An id that is not due cannot be in the mover's hands, so its cancellation holds. */
  lemma CancelBeforeDue(s: State, key: nat, l: Ledger, id: Id)
    requires Inv(s, l) && Enabled(s, CancelSave(key)) && Orderly(s, CancelSave(key))
    requires s.cancels[key].id == id && Waiting(s, l, id)
    requires id in s.db.delayed ==> s.db.delayed[id] > Second(s.clock)
    ensures !OlderCopy(s, id) && NeverStarts(Apply(s, CancelSave(key)), id)
  {
    CopiesAreDue(s, l, id);
    CancelStopsHandler(s, key, l, id);
  }

  /**
   The condition a caller can check: a `Cancel` about to save is safe from whatever the mover may be reading exactly
   when the task is not delayed, or delayed to a second that has not come.
   */
  lemma CancelSafety(s: State, key: nat, l: Ledger, id: Id)
    requires Inv(s, l) && s.mover.Idle? && Enabled(s, CancelSave(key)) && Orderly(s, CancelSave(key))
    requires s.cancels[key].id == id && Waiting(s, l, id) && s.db.hashes[id].content.status != CANCELED
    ensures CancelIsSafe(s, key, id) <==> (id in s.db.delayed ==> s.db.delayed[id] > Second(s.clock))
  {
    if id in s.db.delayed ==> s.db.delayed[id] > Second(s.clock) {
      forall es | Legal(s, es) && Reads(es) && Enabled(Replay(s, es), CancelSave(key))
        ensures NeverStarts(Apply(Replay(s, es), CancelSave(key)), id)
      {
        ReadsKeep(s, es, l);
        CancelBeforeDue(Replay(s, es), key, l, id);
      }
    } else {
      DueIsUnsafe(s, key, l, id);
    }
  }

  /** The mover can read a due task, and then holds it as it is now. */
  lemma DueIsRead(s: State, l: Ledger, id: Id)
    requires Inv(s, l) && s.mover.Idle? && id in s.db.delayed && s.db.delayed[id] <= Second(s.clock)
    requires id in s.db.hashes && s.db.hashes[id].content.status != CANCELED
    ensures var es := [Range(s.clock), Snapshot]; Legal(s, es) && Reads(es) && OlderCopy(Replay(s, es), id)
  {
    var s1, es := Apply(s, Range(s.clock)), [Range(s.clock), Snapshot];
    StepKeeps(s, Range(s.clock), l);
    RangeReads(s, l, id);
    SnapshotReads(s1, l, id);
    assert es[1..] == [Snapshot] && [Snapshot][1..] == [];
    assert Legal(Apply(s1, Snapshot), []);
  }

  lemma RangeReads(s: State, l: Ledger, id: Id)
    requires Base(s, l) && s.mover.Idle? && id in s.db.delayed && s.db.delayed[id] <= Second(s.clock)
    ensures var s' := Apply(s, Range(s.clock)); s'.mover.Ranged? && id in s'.mover.ids && s'.db == s.db
  {
    assert AccountOk(s, id, l[id]) && id in InRange(s.db.delayed, s.clock);
  }

  lemma SnapshotReads(s: State, l: Ledger, id: Id)
    requires Base(s, l) && s.mover.Ranged? && id in s.mover.ids
    requires id in s.db.hashes && s.db.hashes[id].content.status != CANCELED
    ensures OlderCopy(Apply(s, Snapshot), id)
  {
    SnapshotKeepsExact(s, l);
    SnapshotCopies(s, id);
  }

  lemma SnapshotCopies(s: State, id: Id)
    requires Enabled(s, Snapshot)
    ensures var m := Apply(s, Snapshot).mover;
            m.Loaded? && id in m.snapshot ==> id in s.db.hashes && m.snapshot[id] == s.db.hashes[id].content
  {
  }

  lemma DueIsUnsafe(s: State, key: nat, l: Ledger, id: Id)
    requires Inv(s, l) && s.mover.Idle? && Enabled(s, CancelSave(key)) && Orderly(s, CancelSave(key))
    requires s.cancels[key].id == id && Waiting(s, l, id) && s.db.hashes[id].content.status != CANCELED
    requires id in s.db.delayed && s.db.delayed[id] <= Second(s.clock)
    ensures !CancelIsSafe(s, key, id)
  {
    var es := [Range(s.clock), Snapshot];
    DueIsRead(s, l, id);
    ReadsKeep(s, es, l);
    MoverElsewhere(s, Replay(s, es), key, l, id);
    CancelStopsHandler(Replay(s, es), key, l, id);
    UnsafeAfter(s, es, key, id);
  }

  lemma MoverElsewhere(s: State, s': State, key: nat, l: Ledger, id: Id)
    requires s' == s.(mover := s'.mover)
    requires Enabled(s, CancelSave(key)) && Orderly(s, CancelSave(key)) && Waiting(s, l, id)
    ensures Enabled(s', CancelSave(key)) && Orderly(s', CancelSave(key)) && Waiting(s', l, id)
    ensures s'.cancels[key] == s.cancels[key]
  {
  }

  lemma UnsafeAfter(s: State, es: seq<Event>, key: nat, id: Id)
    requires Legal(s, es) && Reads(es) && Enabled(Replay(s, es), CancelSave(key))
    requires !NeverStarts(Apply(Replay(s, es), CancelSave(key)), id)
    ensures !CancelIsSafe(s, key, id)
  {
  }

  /** Inside that window the cancellation is lost: the transaction restores the status its snapshot had. */
  lemma CancelInWindowIsLost(s: State, key: nat, l: Ledger, id: Id, order: seq<Id>)
    requires Inv(s, l) && Enabled(s, CancelSave(key)) && Orderly(s, CancelSave(key)) && Enabled(s, Move(order))
    requires s.cancels[key].id == id && Waiting(s, l, id) && OlderCopy(s, id)
    ensures var s1 := Apply(s, CancelSave(key));
            && Enabled(s1, Move(order))
            && var s2 := Apply(s1, Move(order));
               && id in s2.db.list && id in s2.db.hashes
               && s2.db.hashes[id].content.status == s.mover.snapshot[id].status
  {
    CancelSaveKeeps(s, key, l);
    RestoresStatus(Apply(s, CancelSave(key)), order, l, id);
  }

  /** The transaction gives an id of its snapshot the status the snapshot has. */
  lemma RestoresStatus(s: State, order: seq<Id>, l: Ledger, id: Id)
    requires MoverOk(s, l) && Enabled(s, Move(order)) && id in s.mover.snapshot
    ensures var s' := Apply(s, Move(order));
            && id in s'.db.list && id in s'.db.hashes
            && s'.db.hashes[id].content.status == s.mover.snapshot[id].status
  {
    MovedStore(s, order, l);
    assert id in order;
    assert Apply(s, Move(order)).db.hashes[id] == WrittenBack(s.db, id, s.mover.snapshot[id], s.clock);
  }
}
