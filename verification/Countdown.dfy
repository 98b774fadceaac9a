/** A task published with a countdown: until its handler has run once, every copy of its ETA is the one it came with. */
module Countdown {
  import opened Clock
  import opened Wrappers
  import opened Tasks
  import opened Redis
  import opened Protocol
  import opened Accounts
  import opened Safety
  import opened Runs
  import opened Timeliness
  import Deliveries
  import Draining

  predicate StoredAs(s: State, id: Id, eta: Time) {
    id in s.db.hashes ==> s.db.hashes[id].content.eta == Floor(eta)
  }

  predicate CopiedAs(s: State, id: Id, eta: Time) {
    && (forall k :: k in s.cancels && s.cancels[k].id == id ==> s.cancels[k].eta == Floor(eta))
    && (s.mover.Loaded? && id in s.mover.snapshot ==> s.mover.snapshot[id].eta == Floor(eta))
  }

  predicate HeldAs(s: State, a: Account, eta: Time) {
    a.place.Held? && a.place.key in s.hands ==>
      match s.hands[a.place.key]
      case Filing(t) => t.eta == eta
      case Delivering(d) => d.stage.Starting? && d.task.eta == Floor(eta)
      case _ => true
  }

  /** Before the first run, the ETA is everywhere the one the task was published with. */
  predicate Untried(s: State, id: Id, a: Account, eta: Time) {
    a.used > 0 || a.place.Done? || (StoredAs(s, id, eta) && CopiedAs(s, id, eta) && HeldAs(s, a, eta))
  }

  /** The first run, if there was one, was not early. */
  predicate Ripe(s: State, a: Account, eta: Time) {
    a.used > 0 ==> Floor(eta) <= s.clock
  }

  /** Merging two copies of an ETA leaves that ETA. */
  lemma SavedAs(db: Db, t: TaskValue, ttl: Option<int>, now: Time, eta: Time)
    requires t.id in db.hashes ==> db.hashes[t.id].content.eta == Floor(eta)
    requires t.eta == eta || t.eta == Floor(eta)
    ensures Protocol.Saved(db, t, ttl, now).hashes[t.id].content.eta == Floor(eta)
  {
    assert Floor(ZERO_TIME) == ZERO_TIME && Floor(Floor(eta)) == Floor(eta);
  }

  // Events that are not about the id

  lemma OthersUntried(s: State, e: Event, l: Ledger, id: Id, eta: Time)
    requires Inv(s, l) && Enabled(s, e) && id in l && Untried(s, id, l[id], eta) && Draining.Actor(s, e) != Some(id)
    requires !e.Move? && (e.Submit? ==> e.task.id != id)
    ensures id in Next(s, e, l) && Untried(Apply(s, e), id, Next(s, e, l)[id], eta)
  {
    LimitApart(s, e, l, id);
    if l[id].used == 0 && !l[id].place.Done? {
      StoredApart(s, e, id, eta);
      CopiedApart(s, e, l, id, eta);
      HeldApart(s, e, l, id, eta);
    }
  }

  lemma StoredApart(s: State, e: Event, id: Id, eta: Time)
    requires Enabled(s, e) && Draining.Actor(s, e) != Some(id) && !e.Move?
    requires StoredAs(s, id, eta) && CopiedAs(s, id, eta)
    ensures StoredAs(Apply(s, e), id, eta)
  {
    if !e.CancelSave? {
      HashesApart(s, e, id);
    } else if s.cancels[e.key].id == id {
      SavedAs(s.db, s.cancels[e.key], Ttl(s.cancels[e.key]), s.clock, eta);
    }
  }

  lemma HeldApart(s: State, e: Event, l: Ledger, id: Id, eta: Time)
    requires Inv(s, l) && Enabled(s, e) && id in l && Draining.Actor(s, e) != Some(id) && HeldAs(s, l[id], eta)
    ensures HeldAs(Apply(s, e), l[id], eta)
  {
    if l[id].place.Held? {
      HandApart(s, e, l, id, l[id].place.key);
    }
  }

  lemma CopiedApart(s: State, e: Event, l: Ledger, id: Id, eta: Time)
    requires Inv(s, l) && Enabled(s, e) && !e.Move? && StoredAs(s, id, eta) && CopiedAs(s, id, eta)
    ensures CopiedAs(Apply(s, e), id, eta)
  {
    match e
    case CancelGet(key, from) =>
      LoadedId(s, l, from);
      CopyAddedAs(s, Apply(s, e), key, Loadable(s.db, from, s.clock).value.Canceled(s.clock), id, eta);
    case CancelSave(key) =>
    case Snapshot =>
    case _ => CopiesApart(s, e);
  }

  lemma CopyAddedAs(s: State, s': State, key: nat, t: TaskValue, id: Id, eta: Time)
    requires CopiedAs(s, id, eta) && s' == s.(cancels := s.cancels[key := t]) && (t.id == id ==> t.eta == Floor(eta))
    ensures CopiedAs(s', id, eta)
  {
  }

  // Events about the id

  lemma SubmitUntried(s: State, key: nat, t: TaskValue, l: Ledger)
    requires Inv(s, l) && Enabled(s, Submit(key, t))
    ensures Untried(Apply(s, Submit(key, t)), t.id, Next(s, Submit(key, t), l)[t.id], t.eta)
  {
    assert t.id !in l;
  }

  lemma FileUntried(s: State, key: nat, l: Ledger, id: Id, eta: Time)
    requires Inv(s, l) && Enabled(s, File(key)) && Holds(s.hands[key]) == Some(id)
    requires id in l && Untried(s, id, l[id], eta)
    ensures Untried(Apply(s, File(key)), id, l[id], eta)
  {
    assert l[id].place == Held(key) && AccountOk(s, id, l[id]);
    SavedAs(s.db, s.hands[key].task, None, s.clock, eta);
    CopiesApart(s, File(key));
  }

  lemma EnqueueUntried(s: State, key: nat, l: Ledger, id: Id, eta: Time)
    requires Inv(s, l) && Enabled(s, Enqueue(key)) && Holds(s.hands[key]) == Some(id)
    requires id in l && Untried(s, id, l[id], eta)
    ensures id in Next(s, Enqueue(key), l) && Next(s, Enqueue(key), l)[id].used == l[id].used
    ensures Untried(Apply(s, Enqueue(key)), id, Next(s, Enqueue(key), l)[id], eta)
  {
    CopiesApart(s, Enqueue(key));
  }

  lemma PopUntried(s: State, key: nat, l: Ledger, id: Id, eta: Time)
    requires Inv(s, l) && Enabled(s, Pop(key)) && id == s.db.list[|s.db.list| - 1]
    requires id in l && Untried(s, id, l[id], eta)
    ensures id in Next(s, Pop(key), l) && Next(s, Pop(key), l)[id].used == l[id].used
    ensures Untried(Apply(s, Pop(key)), id, Next(s, Pop(key), l)[id], eta)
  {
    assert l[id].place == Listed;
    CopiesApart(s, Pop(key));
  }

  lemma LoadUntried(s: State, key: nat, l: Ledger, id: Id, eta: Time)
    requires Inv(s, l) && Enabled(s, Load(key)) && s.hands[key].id == id
    requires id in l && Untried(s, id, l[id], eta)
    ensures id in Next(s, Load(key), l) && Next(s, Load(key), l)[id].used == l[id].used
    ensures Untried(Apply(s, Load(key)), id, Next(s, Load(key), l)[id], eta)
  {
    LoadFinds(s, key, l);
    CopiesApart(s, Load(key));
  }

  /** Only the start of the handler is left for a hand that has loaded an untried task, and it is not early. */
  lemma DeliverUntried(s: State, key: nat, event: Deliveries.Event, l: Ledger, id: Id, eta: Time)
    requires Inv(s, l) && Enabled(s, Deliver(key, event)) && Holds(s.hands[key]) == Some(id)
    requires id in l && Untried(s, id, l[id], eta) && Ripe(s, l[id], eta) && Timely(s, id, l[id])
    ensures var e := Deliver(key, event);
            && id in Next(s, e, l) && Untried(Apply(s, e), id, Next(s, e, l)[id], eta)
            && Ripe(Apply(s, e), Next(s, e, l)[id], eta)
  {
    assert l[id].place == Held(key) && AccountOk(s, id, l[id]);
    var d := s.hands[key].delivery;
    if l[id].used == 0 {
      assert d.stage.Starting? && d.task.eta == Floor(eta) && OnTime(d.task.eta, Second(s.clock));
    }
  }

  lemma MovedUntried(s: State, order: seq<Id>, l: Ledger, id: Id, eta: Time)
    requires Inv(s, l) && Enabled(s, Move(order)) && id in l && Untried(s, id, l[id], eta) && id in s.mover.snapshot
    ensures id in Next(s, Move(order), l) && Untried(Apply(s, Move(order)), id, Next(s, Move(order), l)[id], eta)
    ensures Next(s, Move(order), l)[id].used == l[id].used
  {
    MovedLimit(s, order, l, id);
    MovedAs(s, order, id, eta);
    assert Next(s, Move(order), l)[id] == l[id].(place := Listed);
  }

  lemma NotMovedUntried(s: State, order: seq<Id>, l: Ledger, id: Id, eta: Time)
    requires Inv(s, l) && Enabled(s, Move(order)) && id in l && Untried(s, id, l[id], eta) && id !in s.mover.snapshot
    ensures id in Next(s, Move(order), l) && Untried(Apply(s, Move(order)), id, l[id], eta)
    ensures Next(s, Move(order), l)[id] == l[id]
  {
    NotMoved(s, order, l, id);
    SameCopies(s, Apply(s, Move(order)), id, l[id], eta);
  }

  lemma SameCopies(s: State, s': State, id: Id, a: Account, eta: Time)
    requires Untried(s, id, a, eta) && s'.hands == s.hands && s'.cancels == s.cancels && s'.mover.Idle?
    requires id in s'.db.hashes ==> id in s.db.hashes && s'.db.hashes[id] == s.db.hashes[id]
    ensures Untried(s', id, a, eta)
  {
  }

  lemma MovedAs(s: State, order: seq<Id>, id: Id, eta: Time)
    requires Enabled(s, Move(order)) && id in s.mover.snapshot
    ensures StoredAs(s, id, eta) && CopiedAs(s, id, eta) ==>
              StoredAs(Apply(s, Move(order)), id, eta) && CopiedAs(Apply(s, Move(order)), id, eta)
  {
    assert Floor(ZERO_TIME) == ZERO_TIME;
    MovedHash(s, order, id);
  }

  // Every event, every run

  lemma StepUntried(s: State, e: Event, l: Ledger, id: Id, eta: Time)
    requires Inv(s, l) && Enabled(s, e) && AllTimely(s, l)
    requires id in l && Untried(s, id, l[id], eta) && Ripe(s, l[id], eta)
    ensures id in Next(s, e, l)
    ensures Untried(Apply(s, e), id, Next(s, e, l)[id], eta) && Ripe(Apply(s, e), Next(s, e, l)[id], eta)
  {
    ClockOf(s, e);
    if e.Move? {
      if id in s.mover.snapshot {
        MovedUntried(s, e.order, l, id, eta);
      } else {
        NotMovedUntried(s, e.order, l, id, eta);
      }
    } else if Draining.Actor(s, e) != Some(id) {
      assert e.Submit? ==> e.task.id != id;
      OthersUntried(s, e, l, id, eta);
      LimitApart(s, e, l, id);
    } else if e.Deliver? {
      DeliverUntried(s, e.key, e.event, l, id, eta);
    } else if e.File? {
      FileUntried(s, e.key, l, id, eta);
    } else if e.Enqueue? {
      EnqueueUntried(s, e.key, l, id, eta);
    } else if e.Load? {
      LoadUntried(s, e.key, l, id, eta);
    } else {
      PopUntried(s, e.key, l, id, eta);
    }
  }

  /** The ETA a run publishes the id with. */
  function PublishedFor(es: seq<Event>, id: Id): Option<Time> {
    if es == [] then None
    else if es[0].Submit? && es[0].task.id == id then Some(es[0].task.eta)
    else PublishedFor(es[1..], id)
  }

  lemma {:induction false} RunUntried(s: State, es: seq<Event>, l: Ledger, id: Id, eta: Time)
    requires Inv(s, l) && Legal(s, es) && AllOrderly(s, es) && AllTimely(s, l)
    requires if id in l then Untried(s, id, l[id], eta) && Ripe(s, l[id], eta) else PublishedFor(es, id) == Some(eta)
    ensures var s', l' := Replay(s, es), LedgerAfter(s, es, l);
            id in l' && Untried(s', id, l'[id], eta) && Ripe(s', l'[id], eta)
    decreases |es|
  {
    if es != [] {
      StepKeeps(s, es[0], l);
      StepTimely(s, es[0], l);
      if id in l {
        StepUntried(s, es[0], l, id, eta);
      } else if es[0].Submit? && es[0].task.id == id {
        SubmitUntried(s, es[0].key, es[0].task, l);
      } else {
        NotYetPublished(s, es[0], l, id);
      }
      RunUntried(Apply(s, es[0]), es[1..], Next(s, es[0], l), id, eta);
    }
  }

  lemma NotYetPublished(s: State, e: Event, l: Ledger, id: Id)
    requires Inv(s, l) && Enabled(s, e) && Orderly(s, e) && id !in l && !(e.Submit? && e.task.id == id)
    ensures id !in Next(s, e, l)
  {
    StepKeeps(s, e, l);
    assert Apply(s, e).published == s.published || (e.Submit? && Apply(s, e).published == s.published + {e.task.id});
  }

  /**
   A task published for some ETA waits for it: at every moment of an orderly run at which its id is listed, or its
   handler has ever been started, the second of that ETA has come.
   */
  lemma WaitsForItsEta(s: State, es: seq<Event>, id: Id)
    requires Initial(s) && Legal(s, es) && AllOrderly(s, es) && PublishedFor(es, id).Some?
    ensures id in Replay(s, es).db.list || Draining.Starts(s, es, id) > 0 ==>
              Floor(PublishedFor(es, id).value) <= Replay(s, es).clock
  {
    InitialInv(s);
    var eta := PublishedFor(es, id).value;
    RunUntried(s, es, map[], id, eta);
    RunTimely(s, es, map[]);
    Draining.RunUses(s, es, map[], id);
    var s', l := Replay(s, es), LedgerAfter(s, es, map[]);
    if id in s'.db.list {
      assert AccountOk(s', id, l[id]) && Timely(s', id, l[id]);
    }
  }
}
