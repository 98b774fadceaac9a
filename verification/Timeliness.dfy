/**
 No task runs early. The invariant ties every copy of a task's ETA (its hash, copies `Cancel` holds, the mover's
 snapshot, a delivery's task) to the place its id is in.
 */
module Timeliness {
  import opened Clock
  import opened Wrappers
  import opened Tasks
  import opened Redis
  import opened Protocol
  import opened Accounts
  import opened Safety
  import opened Runs
  import Draining
  import Deliveries

  /** A stored ETA: whole, and due by the given second. */
  predicate OnTime(eta: Time, second: int) {
    Floor(eta) == eta && Second(eta) <= second
  }

  /** The second a hand's id is due by: its score if it is about to be delayed, else the clock's. */
  function HandLimit(h: Hand, clock: Time): int {
    match h
    case Filed(_, At(score)) => score
    case Delivering(d) => if d.stage.Pushing? && d.stage.dest.At? then d.stage.dest.score else Second(clock)
    case _ => Second(clock)
  }

  function Limit(s: State, id: Id, a: Account): int {
    match a.place
    case Delayed => if id in s.db.delayed then s.db.delayed[id] else 0
    case Held(key) => if key in s.hands then HandLimit(s.hands[key], s.clock) else Second(s.clock)
    case _ => Second(s.clock)
  }

  predicate StoredTimely(s: State, id: Id, second: int) {
    id in s.db.hashes ==> OnTime(s.db.hashes[id].content.eta, second) && s.db.hashes[id].content.status != SUCCEEDED
  }

  predicate CancelsTimely(s: State, id: Id, second: int) {
    forall k :: k in s.cancels && s.cancels[k].id == id ==>
      OnTime(s.cancels[k].eta, second) && s.cancels[k].oldStatus != SUCCEEDED
  }

  predicate SnapshotTimely(s: State, id: Id, second: int) {
    s.mover.Loaded? && id in s.mover.snapshot ==> OnTime(s.mover.snapshot[id].eta, second)
  }

  /** A delivery that may still write the ETA it was loaded with. */
  predicate HandTimely(s: State, a: Account) {
    a.place.Held? && a.place.key in s.hands && s.hands[a.place.key].Delivering? ==>
      var d := s.hands[a.place.key].delivery;
      d.stage.Starting? || d.stage.Running? || d.stage.Saving? ==> OnTime(d.task.eta, Second(s.clock))
  }

  predicate Timely(s: State, id: Id, a: Account) {
    a.place.Done? ||
    (&& StoredTimely(s, id, Limit(s, id, a)) && CancelsTimely(s, id, Limit(s, id, a))
     && SnapshotTimely(s, id, Limit(s, id, a)) && HandTimely(s, a))
  }

  predicate AllTimely(s: State, l: Ledger) {
    forall id :: id in l ==> Timely(s, id, l[id])
  }

  /** What an event leaves alone stays timely as long as the limit does not fall. */
  lemma Carried(s: State, s': State, id: Id, a: Account, a': Account)
    requires Timely(s, id, a) && !a.place.Done? && Limit(s, id, a) <= Limit(s', id, a')
    requires StoredTimely(s', id, Limit(s', id, a')) || s'.db.hashes == s.db.hashes
             || (id in s'.db.hashes ==> id in s.db.hashes && s'.db.hashes[id] == s.db.hashes[id])
    requires forall k :: k in s'.cancels && s'.cancels[k].id == id ==> k in s.cancels && s'.cancels[k] == s.cancels[k]
    requires s'.mover.Loaded? && id in s'.mover.snapshot ==> s'.mover == s.mover
    requires HandTimely(s', a')
    ensures Timely(s', id, a')
  {
  }

  // Events that are not about the id

  /** Events write no hash but that of the id they work on. */
  lemma HashesApart(s: State, e: Event, id: Id)
    requires Enabled(s, e) && Draining.Actor(s, e) != Some(id)
    requires !e.CancelSave? && !e.Move?
    ensures id in Apply(s, e).db.hashes <==> id in s.db.hashes
    ensures id in s.db.hashes ==> Apply(s, e).db.hashes[id] == s.db.hashes[id]
  {
  }

  lemma DelayedApart(s: State, e: Event, l: Ledger, id: Id)
    requires Inv(s, l) && Enabled(s, e) && Draining.Actor(s, e) != Some(id) && !e.Move?
    ensures id in s.db.delayed <==> id in Apply(s, e).db.delayed
    ensures id in s.db.delayed ==> Apply(s, e).db.delayed[id] == s.db.delayed[id]
  {
    if Pushes(s, e).Some? {
      PusherHolds(s, e, l);
    } else {
      QuietKeepsExact(s, e);
    }
  }

  /** The account, hand and limit of an id nothing happens to. */
  lemma LimitApart(s: State, e: Event, l: Ledger, id: Id)
    requires Inv(s, l) && Enabled(s, e) && id in l && Draining.Actor(s, e) != Some(id) && !e.Move?
    requires e.Submit? ==> e.task.id != id
    ensures id in Next(s, e, l) && Next(s, e, l)[id] == l[id]
    ensures Limit(s, id, l[id]) <= Limit(Apply(s, e), id, l[id])
    ensures HandTimely(s, l[id]) ==> HandTimely(Apply(s, e), l[id])
  {
    DelayedApart(s, e, l, id);
    ClockOf(s, e);
    if !e.Submit? {
      Draining.OtherAccount(s, e, l, id);
    }
    if l[id].place.Held? {
      HandApart(s, e, l, id, l[id].place.key);
      LimitOfHand(s, Apply(s, e), id, l[id], l[id].place.key);
    }
  }

  lemma ClockOf(s: State, e: Event)
    requires Enabled(s, e)
    ensures s.clock <= Apply(s, e).clock
    ensures !e.Advance? ==> Apply(s, e).clock == s.clock
  {
  }

  lemma HandApart(s: State, e: Event, l: Ledger, id: Id, key: nat)
    requires Inv(s, l) && Enabled(s, e) && id in l && l[id].place == Held(key) && Draining.Actor(s, e) != Some(id)
    ensures key in s.hands && key in Apply(s, e).hands && Apply(s, e).hands[key] == s.hands[key]
  {
    if e.Submit? {
      assert AccountOk(s, id, l[id]);
    } else {
      Draining.OtherHand(s, e, l, id, key);
    }
  }

  lemma LimitOfHand(s: State, s': State, id: Id, a: Account, key: nat)
    requires a.place == Held(key) && key in s.hands && key in s'.hands && s'.hands[key] == s.hands[key]
    requires s.clock <= s'.clock
    ensures Limit(s, id, a) <= Limit(s', id, a)
    ensures HandTimely(s, a) ==> HandTimely(s', a)
  {
  }

  lemma OthersTimely(s: State, e: Event, l: Ledger, id: Id)
    requires Inv(s, l) && Enabled(s, e) && id in l && Timely(s, id, l[id]) && Draining.Actor(s, e) != Some(id)
    requires !e.Move? && (e.Submit? ==> e.task.id != id)
    ensures id in Next(s, e, l) && Timely(Apply(s, e), id, Next(s, e, l)[id])
  {
    LimitApart(s, e, l, id);
    if !l[id].place.Done? {
      if e.CancelSave? {
        CancelSaveTimely(s, e.key, l, id);
      } else {
        HashesApart(s, e, id);
        if e.CancelGet? {
          CancelGetTimely(s, e, l, id);
        } else if e.Snapshot? {
          SnapshotTaken(s, l, id);
        } else {
          CopiesApart(s, e);
          Carried(s, Apply(s, e), id, l[id], l[id]);
        }
      }
    }
  }

  /** Only `Cancel` touches its copies, and only the mover its snapshot. */
  lemma CopiesApart(s: State, e: Event)
    requires Enabled(s, e) && !e.CancelGet? && !e.CancelSave? && !e.Snapshot? && !e.Move?
    ensures Apply(s, e).cancels == s.cancels
    ensures Apply(s, e).mover.Loaded? ==> Apply(s, e).mover == s.mover
  {
  }

  lemma LimitNotNegative(s: State, l: Ledger, id: Id)
    requires Inv(s, l) && id in l
    ensures Limit(s, id, l[id]) >= 0
  {
    assert AccountOk(s, id, l[id]);
  }

  lemma CancelSaveTimely(s: State, key: nat, l: Ledger, id: Id)
    requires Inv(s, l) && Enabled(s, CancelSave(key)) && id in l && !l[id].place.Done? && Timely(s, id, l[id])
    ensures Timely(Apply(s, CancelSave(key)), id, l[id])
  {
    var s', c := Apply(s, CancelSave(key)), s.cancels[key];
    LimitNotNegative(s, l, id);
    if c.id == id {
      SavedEta(s.db, c, Ttl(c), s.clock, Limit(s, id, l[id]));
    }
    Carried(s, s', id, l[id], l[id]);
  }

  /** A save leaves the ETA it writes, or the one there was. */
  lemma SavedEta(db: Db, t: TaskValue, ttl: Option<int>, now: Time, second: int)
    requires t.id in db.hashes ==> OnTime(db.hashes[t.id].content.eta, second)
    requires Second(t.eta) <= second && Second(ZERO_TIME) <= second
    ensures t.id in Saved(db, t, ttl, now).hashes
    ensures OnTime(Saved(db, t, ttl, now).hashes[t.id].content.eta, second)
    ensures Saved(db, t, ttl, now).hashes[t.id].content.status == t.status
  {
    assert Floor(ZERO_TIME) == ZERO_TIME;
  }

  /** What `Cancel` loads is as timely as the hash. */
  lemma CopyTaken(s: State, l: Ledger, id: Id, second: int)
    requires HashesOk(s, l) && StoredTimely(s, id, second) && Loadable(s.db, id, s.clock).Some?
    ensures var t := Loadable(s.db, id, s.clock).value;
            t.id == id && OnTime(t.eta, second) && t.oldStatus != SUCCEEDED
  {
  }

  lemma CopyAdded(s: State, s': State, key: nat, t: TaskValue, id: Id, second: int)
    requires CancelsTimely(s, id, second) && s'.cancels == s.cancels[key := t]
    requires t.id == id ==> OnTime(t.eta, second) && t.oldStatus != SUCCEEDED
    ensures CancelsTimely(s', id, second)
  {
  }

  lemma CancelGetTimely(s: State, e: Event, l: Ledger, id: Id)
    requires Inv(s, l) && Enabled(s, e) && e.CancelGet? && id in l && !l[id].place.Done? && Timely(s, id, l[id])
    ensures Timely(Apply(s, e), id, l[id])
  {
    var t := Loadable(s.db, e.id, s.clock).value;
    LoadedId(s, l, e.id);
    if e.id == id {
      CopyTaken(s, l, id, Limit(s, id, l[id]));
    }
    CopyAdded(s, Apply(s, e), e.key, t.Canceled(s.clock), id, Limit(s, id, l[id]));
  }

  lemma LoadedId(s: State, l: Ledger, id: Id)
    requires HashesOk(s, l) && Loadable(s.db, id, s.clock).Some?
    ensures Loadable(s.db, id, s.clock).value.id == id
  {
  }

  lemma SnapshotTaken(s: State, l: Ledger, id: Id)
    requires Inv(s, l) && Enabled(s, Snapshot) && id in l && !l[id].place.Done? && Timely(s, id, l[id])
    ensures Timely(Apply(s, Snapshot), id, l[id])
  {
    MoverOnly(s, Apply(s, Snapshot), id, l[id]);
  }

  /** A snapshot is as timely as the hashes it copies. */
  lemma MoverOnly(s: State, s': State, id: Id, a: Account)
    requires Timely(s, id, a) && !a.place.Done? && s' == s.(mover := s'.mover)
    requires s'.mover.Loaded? && id in s'.mover.snapshot ==>
               id in s.db.hashes && s'.mover.snapshot[id] == s.db.hashes[id].content
    ensures Timely(s', id, a)
  {
    assert Limit(s', id, a) == Limit(s, id, a);
  }

  // Events about the id

  lemma SubmitTimely(s: State, key: nat, t: TaskValue, l: Ledger)
    requires Inv(s, l) && Enabled(s, Submit(key, t))
    ensures Timely(Apply(s, Submit(key, t)), t.id, Next(s, Submit(key, t), l)[t.id])
  {
    assert t.id !in l;
  }

  /** A new id has no hash yet, so no cancel and no snapshot holds a copy of it. */
  lemma FiledUnseen(s: State, key: nat, l: Ledger, id: Id)
    requires Inv(s, l) && Enabled(s, File(key)) && Holds(s.hands[key]) == Some(id)
    ensures id in l && l[id].place == Held(key)
    ensures forall k :: k in s.cancels ==> s.cancels[k].id != id
    ensures s.mover.Loaded? ==> id !in s.mover.snapshot
  {
    assert AccountOk(s, id, l[id]);
  }

  lemma FileTimely(s: State, key: nat, l: Ledger, id: Id)
    requires Inv(s, l) && Enabled(s, File(key)) && Holds(s.hands[key]) == Some(id)
    ensures id in l && Timely(Apply(s, File(key)), id, l[id])
  {
    FiledUnseen(s, key, l, id);
    assert AccountOk(s, id, l[id]);
    assert Floor(ZERO_TIME) == ZERO_TIME && Second(ZERO_TIME) < 0;
  }

  /** A push takes the limit with it. */
  lemma PushTimely(s: State, e: Event, l: Ledger, id: Id)
    requires Inv(s, l) && Enabled(s, e) && Pushes(s, e).Some? && Runs.Pushed(s, e) == id
    requires id in l && Timely(s, id, l[id])
    ensures id in Next(s, e, l) && Timely(Apply(s, e), id, Next(s, e, l)[id])
  {
    PusherHolds(s, e, l);
    assert Holds(s.hands[e.key]) == Some(id);
    assert l[id].place == Held(e.key);
    CopiesApart(s, e);
    Carried(s, Apply(s, e), id, l[id], Next(s, e, l)[id]);
  }

  lemma PopTimely(s: State, key: nat, l: Ledger, id: Id)
    requires Inv(s, l) && Enabled(s, Pop(key)) && id == s.db.list[|s.db.list| - 1] && id in l && Timely(s, id, l[id])
    ensures id in Next(s, Pop(key), l) && Timely(Apply(s, Pop(key)), id, Next(s, Pop(key), l)[id])
  {
    assert l[id].place == Listed;
    Carried(s, Apply(s, Pop(key)), id, l[id], Next(s, Pop(key), l)[id]);
  }

  lemma LoadTimely(s: State, key: nat, l: Ledger, id: Id)
    requires Inv(s, l) && Enabled(s, Load(key)) && s.hands[key].id == id && id in l && Timely(s, id, l[id])
    ensures id in Next(s, Load(key), l) && Timely(Apply(s, Load(key)), id, Next(s, Load(key), l)[id])
  {
    LoadFinds(s, key, l);
    if !Next(s, Load(key), l)[id].place.Done? {
      Carried(s, Apply(s, Load(key)), id, l[id], Next(s, Load(key), l)[id]);
    }
  }

  lemma BeginTimely(s: State, key: nat, l: Ledger, id: Id)
    requires Inv(s, l) && Enabled(s, Deliver(key, Deliveries.Begin)) && Holds(s.hands[key]) == Some(id)
    requires id in l && Timely(s, id, l[id])
    ensures var e := Deliver(key, Deliveries.Begin);
            id in Next(s, e, l) && Timely(Apply(s, e), id, Next(s, e, l)[id])
  {
    var e, t := Deliver(key, Deliveries.Begin), s.hands[key].delivery.task;
    assert l[id].place == Held(key) && AccountOk(s, id, l[id]);
    assert Second(ZERO_TIME) < 0;
    SavedEta(s.db, t, Ttl(t), s.clock, Second(s.clock));
    CopiesApart(s, e);
    Carried(s, Apply(s, e), id, l[id], Next(s, e, l)[id]);
  }

  /** The memory events settle the task with the ETA it has, or leave a retry to be stored. */
  lemma SettleTimely(s: State, key: nat, event: Deliveries.Event, l: Ledger, id: Id)
    requires Inv(s, l) && Enabled(s, Deliver(key, event)) && InMemory(event) && Holds(s.hands[key]) == Some(id)
    requires id in l && Timely(s, id, l[id])
    ensures Timely(Apply(s, Deliver(key, event)), id, l[id])
  {
    assert l[id].place == Held(key);
    var d, d' := s.hands[key].delivery, Deliveries.Apply(s.hands[key].delivery, event, s.clock);
    SettledEta(d, event, s.clock);
    CopiesApart(s, Deliver(key, event));
    Carried(s, Apply(s, Deliver(key, event)), id, l[id], l[id]);
  }

  lemma SettledEta(d: Deliveries.Delivery, event: Deliveries.Event, now: Time)
    requires Deliveries.Consistent(d) && Deliveries.Enabled(d, event, now) && InMemory(event)
    ensures var d' := Deliveries.Apply(d, event, now);
            && (d'.stage != d.stage ==> d.stage.Running? && (d'.stage.Saving? || d'.stage.Storing?))
            && (d'.stage.Running? || d'.stage.Saving? ==> d'.task.eta == d.task.eta)
  {
  }

  lemma StoreRetryTimely(s: State, key: nat, l: Ledger, id: Id)
    requires Inv(s, l) && Enabled(s, Deliver(key, Deliveries.StoreRetry)) && Holds(s.hands[key]) == Some(id)
    requires id in l && Timely(s, id, l[id])
    ensures Timely(Apply(s, Deliver(key, Deliveries.StoreRetry)), id, l[id])
  {
    var e, t := Deliver(key, Deliveries.StoreRetry), s.hands[key].delivery.task;
    assert l[id].place == Held(key) && AccountOk(s, id, l[id]);
    assert Second(ZERO_TIME) < 0;
    var s' := Apply(s, e);
    RetryLimit(t.eta, s.clock);
    SavedEta(s.db, t, None, s.clock, Limit(s', id, l[id]));
    CopiesApart(s, e);
    Carried(s, s', id, l[id], l[id]);
  }

  /** Wherever an ETA sends its id, neither the ETA's second nor the clock's is past what the destination allows. */
  lemma RetryLimit(eta: Time, now: Time)
    ensures match Destination(eta, now)
            case At(score) => Second(eta) <= score && Second(now) <= score
            case Back => eta == ZERO_TIME
            case Front => Second(eta) <= Second(now)
  {
  }

  lemma MovedLimit(s: State, order: seq<Id>, l: Ledger, id: Id)
    requires Inv(s, l) && Enabled(s, Move(order)) && id in s.mover.snapshot && id in l
    ensures l[id].place == Delayed && 0 <= Limit(s, id, l[id]) <= Second(s.clock)
    ensures id in Next(s, Move(order), l) && Next(s, Move(order), l)[id].place == Listed
    ensures s.mover.snapshot[id].status != SUCCEEDED
  {
    assert id in InRange(s.db.delayed, s.mover.max);
    assert AccountOk(s, id, l[id]) && QueuedTask(s.mover.snapshot[id], id, l[id]);
  }

  lemma MovedStored(s: State, order: seq<Id>, id: Id, second: int)
    requires Enabled(s, Move(order)) && id in s.mover.snapshot && second >= 0
    requires StoredTimely(s, id, second) && SnapshotTimely(s, id, second) && s.mover.snapshot[id].status != SUCCEEDED
    ensures StoredTimely(Apply(s, Move(order)), id, second)
  {
    assert Floor(ZERO_TIME) == ZERO_TIME && Second(ZERO_TIME) < 0;
    MovedHash(s, order, id);
    WrittenBackEta(s.db, id, s.mover.snapshot[id], s.clock, second);
  }

  lemma MovedTimely(s: State, order: seq<Id>, l: Ledger, id: Id)
    requires Inv(s, l) && Enabled(s, Move(order)) && id in s.mover.snapshot && id in l && Timely(s, id, l[id])
    ensures id in Next(s, Move(order), l) && Timely(Apply(s, Move(order)), id, Next(s, Move(order), l)[id])
  {
    MovedLimit(s, order, l, id);
    MovedStored(s, order, id, Limit(s, id, l[id]));
    Carried(s, Apply(s, Move(order)), id, l[id], Next(s, Move(order), l)[id]);
  }

  lemma NotMovedTimely(s: State, order: seq<Id>, l: Ledger, id: Id)
    requires Inv(s, l) && Enabled(s, Move(order)) && id !in s.mover.snapshot && id in l && Timely(s, id, l[id])
    ensures id in Next(s, Move(order), l) && Timely(Apply(s, Move(order)), id, Next(s, Move(order), l)[id])
  {
    NotMoved(s, order, l, id);
    if !l[id].place.Done? {
      Carried(s, Apply(s, Move(order)), id, l[id], l[id]);
    }
  }

  lemma NotMoved(s: State, order: seq<Id>, l: Ledger, id: Id)
    requires Inv(s, l) && Enabled(s, Move(order)) && id !in s.mover.snapshot && id in l
    ensures id in Next(s, Move(order), l) && Next(s, Move(order), l)[id] == l[id]
    ensures var s' := Apply(s, Move(order));
            && s'.hands == s.hands && s'.clock == s.clock && s'.cancels == s.cancels && s'.mover.Idle?
            && (id in s.db.delayed ==> id in s'.db.delayed && s'.db.delayed[id] == s.db.delayed[id])
            && (id in s'.db.hashes ==> id in s.db.hashes && s'.db.hashes[id] == s.db.hashes[id])
            && Limit(s', id, l[id]) >= Limit(s, id, l[id])
  {
    MovedStore(s, order, l);
    assert id !in InRange(s.db.delayed, s.mover.max);
    assert AccountOk(s, id, l[id]);
  }

  lemma WrittenBackEta(db: Db, id: Id, p: TaskValue, now: Time, second: int)
    requires id in db.hashes ==> OnTime(db.hashes[id].content.eta, second)
    requires OnTime(p.eta, second) && OnTime(ZERO_TIME, second)
    ensures OnTime(WrittenBack(db, id, p, now).content.eta, second)
    ensures WrittenBack(db, id, p, now).content.status == p.status
  {
  }

  // Every event, every run

  lemma ActorTimely(s: State, e: Event, l: Ledger, id: Id)
    requires Inv(s, l) && Enabled(s, e) && id in l && Timely(s, id, l[id]) && Draining.Actor(s, e) == Some(id)
    ensures id in Next(s, e, l) && Timely(Apply(s, e), id, Next(s, e, l)[id])
  {
    match e
    case File(key) => FileTimely(s, key, l, id);
    case Enqueue(key) => PushTimely(s, e, l, id);
    case Pop(key) => PopTimely(s, key, l, id);
    case Load(key) => LoadTimely(s, key, l, id);
    case Deliver(key, Begin) => BeginTimely(s, key, l, id);
    case Deliver(key, Save) => assert Next(s, e, l)[id].place == Done;
    case Deliver(key, StoreRetry) => StoreRetryTimely(s, key, l, id);
    case Deliver(key, PushRetry) => PushTimely(s, e, l, id);
    case Deliver(key, event) => SettleTimely(s, key, event, l, id);
  }

  lemma IdTimely(s: State, e: Event, l: Ledger, id: Id)
    requires Inv(s, l) && Enabled(s, e) && AllTimely(s, l) && id in Next(s, e, l)
    ensures Timely(Apply(s, e), id, Next(s, e, l)[id])
  {
    if e.Submit? && e.task.id == id {
      SubmitTimely(s, e.key, e.task, l);
    } else if e.Move? {
      if id in s.mover.snapshot {
        MovedTimely(s, e.order, l, id);
      } else {
        NotMovedTimely(s, e.order, l, id);
      }
    } else if Draining.Actor(s, e) == Some(id) {
      ActorTimely(s, e, l, id);
    } else {
      OthersTimely(s, e, l, id);
    }
  }

  lemma StepTimely(s: State, e: Event, l: Ledger)
    requires Inv(s, l) && Enabled(s, e) && AllTimely(s, l)
    ensures AllTimely(Apply(s, e), Next(s, e, l))
  {
    forall id | id in Next(s, e, l) ensures Timely(Apply(s, e), id, Next(s, e, l)[id]) {
      IdTimely(s, e, l, id);
    }
  }

  lemma {:induction false} RunTimely(s: State, es: seq<Event>, l: Ledger)
    requires Inv(s, l) && Legal(s, es) && AllOrderly(s, es) && AllTimely(s, l)
    ensures AllTimely(Replay(s, es), LedgerAfter(s, es, l))
    decreases |es|
  {
    if es != [] {
      StepKeeps(s, es[0], l);
      StepTimely(s, es[0], l);
      RunTimely(Apply(s, es[0]), es[1..], Next(s, es[0], l));
    }
  }

  /**
   No id is listed, and no handler about to be started, before the second of its task's ETA: in every state an orderly
   run reaches, the ETA stored for a listed id is not after the clock, nor is that of a task a worker has loaded.
   */
  lemma NothingEarly(s: State, es: seq<Event>)
    requires Initial(s) && Legal(s, es) && AllOrderly(s, es)
    ensures var s' := Replay(s, es);
            && (forall id :: id in s'.db.list ==> id in s'.db.hashes && s'.db.hashes[id].content.eta <= s'.clock)
            && (forall key :: key in s'.hands && s'.hands[key].Delivering? && s'.hands[key].delivery.stage.Starting? ==>
                  s'.hands[key].delivery.task.eta <= s'.clock)
  {
    InitialInv(s);
    RunTimely(s, es, map[]);
    var s', l := Replay(s, es), LedgerAfter(s, es, map[]);
    forall id | id in s'.db.list ensures id in s'.db.hashes && s'.db.hashes[id].content.eta <= s'.clock {
      assert AccountOk(s', id, l[id]) && Timely(s', id, l[id]);
    }
    forall key | key in s'.hands && s'.hands[key].Delivering? && s'.hands[key].delivery.stage.Starting?
      ensures s'.hands[key].delivery.task.eta <= s'.clock
    {
      var id := s'.hands[key].delivery.task.id;
      assert Holds(s'.hands[key]) == Some(id);
      assert Timely(s', id, l[id]);
    }
  }
}
