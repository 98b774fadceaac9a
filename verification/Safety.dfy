/** Every event of the protocol keeps the invariant. */
module Safety {
  import opened Clock
  import opened Wrappers
  import opened Tasks
  import opened Redis
  import opened Protocol
  import opened Accounts
  import Deliveries

  lemma SubmitKeeps(s: State, key: nat, t: TaskValue, l: Ledger)
    requires Base(s, l) && Enabled(s, Submit(key, t)) && Orderly(s, Submit(key, t))
    ensures Base(Apply(s, Submit(key, t)), Next(s, Submit(key, t), l))
  {
    var s', l' := Apply(s, Submit(key, t)), Next(s, Submit(key, t), l);
    forall id | id in l' ensures AccountOk(s', id, l'[id]) {
      if id != t.id {
        Untouched(s, s', id, l[id]);
      }
    }
  }

  lemma FileKeeps(s: State, key: nat, l: Ledger)
    requires Base(s, l) && Enabled(s, File(key))
    ensures Base(Apply(s, File(key)), Next(s, File(key), l))
  {
    var s' := Apply(s, File(key));
    var t := s.hands[key].task;
    assert l[t.id].place == Held(key) && AccountOk(s, t.id, l[t.id]);
    SavedHash(s, t, None);
    forall id | id in l ensures AccountOk(s', id, l[id]) {
      if id != t.id {
        Untouched(s, s', id, l[id]);
      }
    }
  }

  /** What pushing an id does to the list and to the delayed set. */
  lemma Pushed(db: Db, x: Id, dest: Dest)
    requires x !in db.list
    requires forall i, j :: 0 <= i < j < |db.list| ==> db.list[i] != db.list[j]
    ensures var db' := Push(db, x, dest);
            && db'.hashes == db.hashes
            && (dest.At? ==> db'.list == db.list && db'.delayed == db.delayed[x := dest.score])
            && (!dest.At? ==> db'.delayed == db.delayed && x in db'.list
                              && (forall id :: id in db.list ==> id in db'.list)
                              && (forall i :: 0 <= i < |db'.list| ==> db'.list[i] in db.list || db'.list[i] == x))
            && forall i, j :: 0 <= i < j < |db'.list| ==> db'.list[i] != db'.list[j]
  {
    match dest
    case Back =>
      var list := db.list + [x];
      assert forall i :: 0 <= i < |db.list| ==> list[i] == db.list[i];
      assert list[|db.list|] == x;
    case Front =>
      var list := [x] + db.list;
      assert forall i :: 0 <= i < |db.list| ==> list[i + 1] == db.list[i];
      assert list[0] == x;
    case At(_) =>
  }

  /** Pushing the id a hand holds, whoever pushes it; `key` no longer holds it afterwards. */
  lemma PushKeeps(s: State, s': State, l: Ledger, l': Ledger, x: Id, key: nat, dest: Dest)
    requires Base(s, l) && x in l && l[x].place == Held(key) && Queued(s, x, l[x]) && Later(dest)
    requires s' == s.(db := Push(s.db, x, dest), hands := s'.hands)
    requires forall k :: k != key ==> (k in s'.hands <==> k in s.hands) && (k in s.hands ==> s'.hands[k] == s.hands[k])
    requires key in s'.hands ==>
               s'.hands[key].Delivering? && Deliveries.Consistent(s'.hands[key].delivery) && Holds(s'.hands[key]).None?
    requires l' == l[x := l[x].(place := PlaceOf(dest))]
    ensures Base(s', l')
  {
    assert x !in s.db.list && x !in s.db.delayed && x !in s.settled;
    PushedPlaces(s, s', l, l', x, key, dest);
    PushedAccounts(s, s', l, l', x, key, dest);
    PushedMover(s, s', l, l', x, key, dest);
  }

  lemma PushedPlaces(s: State, s': State, l: Ledger, l': Ledger, x: Id, key: nat, dest: Dest)
    requires ListOk(s, l) && DelayedOk(s, l) && x in l && x !in s.db.list && x !in s.db.delayed
    requires s' == s.(db := Push(s.db, x, dest), hands := s'.hands)
    requires l' == l[x := l[x].(place := PlaceOf(dest))]
    ensures ListOk(s', l') && DelayedOk(s', l') && s'.db.hashes == s.db.hashes
  {
    Pushed(s.db, x, dest);
  }

  lemma PushedMover(s: State, s': State, l: Ledger, l': Ledger, x: Id, key: nat, dest: Dest)
    requires MoverOk(s, l) && x in l && x !in s.db.delayed
    requires s' == s.(db := Push(s.db, x, dest), hands := s'.hands)
    requires l' == l[x := l[x].(place := PlaceOf(dest))]
    ensures MoverOk(s', l')
  {
  }

  lemma PushedAccounts(s: State, s': State, l: Ledger, l': Ledger, x: Id, key: nat, dest: Dest)
    requires Base(s, l) && x in l && l[x].place == Held(key) && Queued(s, x, l[x]) && Later(dest)
    requires s' == s.(db := Push(s.db, x, dest), hands := s'.hands)
    requires forall k :: k != key ==> (k in s'.hands <==> k in s.hands) && (k in s.hands ==> s'.hands[k] == s.hands[k])
    requires l' == l[x := l[x].(place := PlaceOf(dest))]
    ensures forall id :: id in l' ==> AccountOk(s', id, l'[id])
  {
    assert AccountOk(s, x, l[x]);
    assert x !in s.db.list && x !in s.db.delayed;
    Pushed(s.db, x, dest);
    forall id | id in l' ensures AccountOk(s', id, l'[id]) {
      if id != x {
        Untouched(s, s', id, l[id]);
      }
    }
  }

  lemma EnqueueKeeps(s: State, key: nat, l: Ledger)
    requires Base(s, l) && Enabled(s, Enqueue(key))
    ensures Base(Apply(s, Enqueue(key)), Next(s, Enqueue(key), l))
  {
    var x := s.hands[key].task.id;
    assert l[x].place == Held(key) && AccountOk(s, x, l[x]);
    PushKeeps(s, Apply(s, Enqueue(key)), l, Next(s, Enqueue(key), l), x, key, s.hands[key].dest);
  }

  lemma PopKeeps(s: State, key: nat, l: Ledger)
    requires Base(s, l) && Enabled(s, Pop(key))
    ensures Base(Apply(s, Pop(key)), Next(s, Pop(key), l))
  {
    PoppedPlaces(s, key, l);
    PoppedAccounts(s, key, l);
  }

  lemma PoppedPlaces(s: State, key: nat, l: Ledger)
    requires Base(s, l) && Enabled(s, Pop(key))
    ensures ListOk(Apply(s, Pop(key)), Next(s, Pop(key), l)) && HandsOk(Apply(s, Pop(key)), Next(s, Pop(key), l))
  {
  }

  lemma PoppedAccounts(s: State, key: nat, l: Ledger)
    requires Base(s, l) && Enabled(s, Pop(key))
    ensures var s', l' := Apply(s, Pop(key)), Next(s, Pop(key), l);
            forall id :: id in l' ==> AccountOk(s', id, l'[id])
  {
    var s', l' := Apply(s, Pop(key)), Next(s, Pop(key), l);
    var x := s.db.list[|s.db.list| - 1];
    assert AccountOk(s, x, l[x]);
    forall id | id in l' ensures AccountOk(s', id, l'[id]) {
      if id != x {
        if id in s.db.list {
          var i :| 0 <= i < |s.db.list| && s.db.list[i] == id;
          assert s'.db.list[i] == id;
        }
        Untouched(s, s', id, l[id]);
      }
    }
  }

  /** A worker always finds the hash of the id it has popped. */
  lemma LoadFinds(s: State, key: nat, l: Ledger)
    requires Base(s, l) && Enabled(s, Load(key))
    ensures var x := s.hands[key].id;
            && x in l && l[x].place == Held(key) && Queued(s, x, l[x]) && l[x].used <= l[x].granted + 1
            && Loadable(s.db, x, s.clock) ==
               Some(s.db.hashes[x].content.(oldStatus := s.db.hashes[x].content.status))
  {
    var x := s.hands[key].id;
    assert Holds(s.hands[key]) == Some(x);
    assert AccountOk(s, x, l[x]);
  }

  lemma LoadKeeps(s: State, key: nat, l: Ledger)
    requires Base(s, l) && Enabled(s, Load(key))
    ensures Base(Apply(s, Load(key)), Next(s, Load(key), l))
  {
    LoadedPlaces(s, key, l);
    LoadedAccounts(s, key, l);
  }

  lemma LoadedPlaces(s: State, key: nat, l: Ledger)
    requires Base(s, l) && Enabled(s, Load(key))
    ensures var s', l' := Apply(s, Load(key)), Next(s, Load(key), l);
            l'.Keys == l.Keys && s'.db == s.db && s'.mover == s.mover && s'.clock == s.clock
            && ListOk(s', l') && DelayedOk(s', l') && HandsOk(s', l') && DoneOk(s', l') && MoverOk(s', l')
  {
    LoadFinds(s, key, l);
    ReleasedPlaces(s, Apply(s, Load(key)), l, Next(s, Load(key), l), s.hands[key].id, key);
  }

  /** The hand `key` goes on holding its id, or settles it. */
  lemma ReleasedPlaces(s: State, s': State, l: Ledger, l': Ledger, x: Id, key: nat)
    requires ListOk(s, l) && DelayedOk(s, l) && HandsOk(s, l) && DoneOk(s, l) && MoverOk(s, l)
    requires x in l && l[x].place == Held(key)
    requires s' == s.(hands := s'.hands, settled := s'.settled)
    requires forall k :: k != key ==> (k in s'.hands <==> k in s.hands) && (k in s.hands ==> s'.hands[k] == s.hands[k])
    requires if key in s'.hands
             then l' == l && s'.settled == s.settled && Holds(s'.hands[key]) == Some(x)
                  && s'.hands[key].Delivering? && Deliveries.Consistent(s'.hands[key].delivery)
             else l' == l[x := l[x].(place := Done)] && s'.settled == s.settled + {x}
    ensures ListOk(s', l') && DelayedOk(s', l') && HandsOk(s', l') && DoneOk(s', l') && MoverOk(s', l')
  {
  }

  lemma LoadedAccounts(s: State, key: nat, l: Ledger)
    requires Base(s, l) && Enabled(s, Load(key))
    ensures var s', l' := Apply(s, Load(key)), Next(s, Load(key), l);
            forall id :: id in l' ==> AccountOk(s', id, l'[id])
  {
    LoadFinds(s, key, l);
    var s', l' := Apply(s, Load(key)), Next(s, Load(key), l);
    forall id | id in l' ensures AccountOk(s', id, l'[id]) {
      if id != s.hands[key].id {
        Untouched(s, s', id, l[id]);
      }
    }
  }

  /** Key `key` of the hands, which held `t`'s id, has written `t`; nothing else has happened but settling the id. */
  predicate WroteOwn(s: State, s': State, l: Ledger, l': Ledger, t: TaskValue, ttl: Option<int>, key: nat) {
    && Sane(t, t.id) && t.id in l && l[t.id].place == Held(key) && key in s'.hands
    && s' == s.(db := Saved(s.db, t, ttl, s.clock), hands := s.hands[key := s'.hands[key]], settled := s'.settled)
    && t.id in l' && l' == l[t.id := l'[t.id]]
    && (l'[t.id].place == Held(key) ==> s'.settled == s.settled)
    && (l'[t.id].place != Held(key) ==> s'.settled == s.settled + {t.id} && l'[t.id].place == Done)
  }

  lemma WriteKeeps(s: State, s': State, l: Ledger, l': Ledger, t: TaskValue, ttl: Option<int>, key: nat)
    requires Base(s, l) && WroteOwn(s, s', l, l', t, ttl, key)
    requires s'.hands[key].Delivering? ==> Deliveries.Consistent(s'.hands[key].delivery)
    requires Holds(s'.hands[key]) == (if l'[t.id].place == Done then None else Some(t.id))
    requires AccountOk(s', t.id, l'[t.id])
    ensures Base(s', l')
  {
    SavedHash(s, t, ttl);
    WrittenPlaces(s, s', l, l', t, ttl, key);
    WrittenAccounts(s, s', l, l', t, ttl, key);
  }

  lemma WrittenPlaces(s: State, s': State, l: Ledger, l': Ledger, t: TaskValue, ttl: Option<int>, key: nat)
    requires Base(s, l) && WroteOwn(s, s', l, l', t, ttl, key)
    ensures ListOk(s', l') && DelayedOk(s', l') && DoneOk(s', l') && MoverOk(s', l')
  {
    SavedHash(s, t, ttl);
    assert t.id !in s.db.list && t.id !in s.db.delayed;
  }

  lemma WrittenAccounts(s: State, s': State, l: Ledger, l': Ledger, t: TaskValue, ttl: Option<int>, key: nat)
    requires Base(s, l) && WroteOwn(s, s', l, l', t, ttl, key)
    requires AccountOk(s', t.id, l'[t.id])
    ensures forall id :: id in l' ==> AccountOk(s', id, l'[id])
  {
    SavedHash(s, t, ttl);
    forall id | id in l' ensures AccountOk(s', id, l'[id]) {
      if id != t.id {
        Untouched(s, s', id, l[id]);
      }
    }
  }

  lemma BegunAccount(s: State, key: nat, l: Ledger)
    requires Base(s, l) && Enabled(s, Deliver(key, Deliveries.Begin))
    ensures var e, t := Deliver(key, Deliveries.Begin), s.hands[key].delivery.task;
            && Sane(t, t.id) && t.id in l && l[t.id].place == Held(key)
            && AccountOk(Apply(s, e), t.id, Next(s, e, l)[t.id])
  {
    var t := s.hands[key].delivery.task;
    assert l[t.id].place == Held(key) && AccountOk(s, t.id, l[t.id]);
    SavedHash(s, t, Ttl(t));
  }

  lemma BeginKeeps(s: State, key: nat, l: Ledger)
    requires Base(s, l) && Enabled(s, Deliver(key, Deliveries.Begin))
    ensures Base(Apply(s, Deliver(key, Deliveries.Begin)), Next(s, Deliver(key, Deliveries.Begin), l))
  {
    var e := Deliver(key, Deliveries.Begin);
    var t := s.hands[key].delivery.task;
    BegunAccount(s, key, l);
    Deliveries.StepConsistent(s.hands[key].delivery, Deliveries.Begin, s.clock);
    WriteKeeps(s, Apply(s, e), l, Next(s, e, l), t, Ttl(t), key);
  }

  lemma SaveKeeps(s: State, key: nat, l: Ledger)
    requires Base(s, l) && Enabled(s, Deliver(key, Deliveries.Save))
    ensures Base(Apply(s, Deliver(key, Deliveries.Save)), Next(s, Deliver(key, Deliveries.Save), l))
  {
    var e := Deliver(key, Deliveries.Save);
    var t := s.hands[key].delivery.task;
    assert l[t.id].place == Held(key) && AccountOk(s, t.id, l[t.id]);
    Deliveries.StepConsistent(s.hands[key].delivery, Deliveries.Save, s.clock);
    WriteKeeps(s, Apply(s, e), l, Next(s, e, l), t, Ttl(t), key);
  }

  lemma StoredAccount(s: State, key: nat, l: Ledger)
    requires Base(s, l) && Enabled(s, Deliver(key, Deliveries.StoreRetry))
    ensures var t := s.hands[key].delivery.task;
            && Sane(t, t.id) && t.id in l && l[t.id].place == Held(key)
            && AccountOk(Apply(s, Deliver(key, Deliveries.StoreRetry)), t.id, l[t.id])
  {
    var t := s.hands[key].delivery.task;
    assert l[t.id].place == Held(key) && AccountOk(s, t.id, l[t.id]);
    SavedHash(s, t, None);
  }

  lemma StoreRetryKeeps(s: State, key: nat, l: Ledger)
    requires Base(s, l) && Enabled(s, Deliver(key, Deliveries.StoreRetry))
    ensures Base(Apply(s, Deliver(key, Deliveries.StoreRetry)), Next(s, Deliver(key, Deliveries.StoreRetry), l))
  {
    var e := Deliver(key, Deliveries.StoreRetry);
    var t := s.hands[key].delivery.task;
    StoredAccount(s, key, l);
    Deliveries.StepConsistent(s.hands[key].delivery, Deliveries.StoreRetry, s.clock);
    WriteKeeps(s, Apply(s, e), l, Next(s, e, l), t, None, key);
  }

  lemma PushRetryKeeps(s: State, key: nat, l: Ledger)
    requires Base(s, l) && Enabled(s, Deliver(key, Deliveries.PushRetry))
    ensures Base(Apply(s, Deliver(key, Deliveries.PushRetry)), Next(s, Deliver(key, Deliveries.PushRetry), l))
  {
    var e := Deliver(key, Deliveries.PushRetry);
    var d := s.hands[key].delivery;
    assert l[d.task.id].place == Held(key) && AccountOk(s, d.task.id, l[d.task.id]);
    Deliveries.StepConsistent(d, Deliveries.PushRetry, s.clock);
    PushKeeps(s, Apply(s, e), l, Next(s, e, l), d.task.id, key, d.stage.dest);
  }

  predicate InMemory(event: Deliveries.Event) {
    event.Return? || event.Panic? || event.Deadline? || event.Receive?
  }

  lemma SettlingKeeps(s: State, d: Deliveries.Delivery, event: Deliveries.Event, id: Id, a: Account)
    requires Deliveries.Consistent(d) && DeliveryOk(s, d, id, a) && a.used <= a.granted + 1
    requires Deliveries.Enabled(d, event, s.clock) && InMemory(event)
    ensures DeliveryOk(s, Deliveries.Apply(d, event, s.clock), id, a)
  {
  }

  /** A hand goes on with its delivery; nothing else changes. */
  lemma SwapKeeps(s: State, s': State, key: nat, l: Ledger, d': Deliveries.Delivery)
    requires Base(s, l) && key in s.hands && s.hands[key].Delivering?
    requires s' == s.(hands := s.hands[key := Delivering(d')])
    requires Deliveries.Consistent(d') && Holds(Delivering(d')) == Holds(s.hands[key])
    requires forall id :: id in l && l[id].place == Held(key) ==> DeliveryOk(s', d', id, l[id])
    ensures Base(s', l)
  {
    forall id | id in l ensures AccountOk(s', id, l[id]) {
      assert AccountOk(s, id, l[id]);
      if l[id].place != Held(key) {
        Untouched(s, s', id, l[id]);
      }
    }
  }

  /** The other delivery events change the shared task in memory only. */
  lemma InMemoryKeeps(s: State, key: nat, event: Deliveries.Event, l: Ledger)
    requires Base(s, l) && Enabled(s, Deliver(key, event)) && InMemory(event)
    ensures Base(Apply(s, Deliver(key, event)), l)
  {
    var s' := Apply(s, Deliver(key, event));
    var d := s.hands[key].delivery;
    var d' := Deliveries.Apply(d, event, s.clock);
    Deliveries.StepConsistent(d, event, s.clock);
    forall id | id in l && l[id].place == Held(key) ensures DeliveryOk(s', d', id, l[id]) {
      assert AccountOk(s, id, l[id]);
      SettlingKeeps(s, d, event, id, l[id]);
    }
    SettlingHolds(d, event, s.clock);
    SwapKeeps(s, s', key, l, d');
  }

  lemma SettlingHolds(d: Deliveries.Delivery, event: Deliveries.Event, now: Time)
    requires Deliveries.Consistent(d) && Deliveries.Enabled(d, event, now) && InMemory(event)
    ensures Holds(Delivering(Deliveries.Apply(d, event, now))) == Holds(Delivering(d))
  {
  }

  lemma SameStore(s: State, s': State, l: Ledger)
    requires Base(s, l)
    requires s'.db == s.db && s'.hands == s.hands && s'.settled == s.settled && s'.published == s.published
    requires s'.clock >= s.clock && CancelsOk(s') && MoverOk(s', l)
    ensures Base(s', l)
  {
    forall id | id in l ensures AccountOk(s', id, l[id]) {
      Untouched(s, s', id, l[id]);
    }
  }

  lemma ReadKeeps(s: State, e: Event, l: Ledger)
    requires Base(s, l) && Enabled(s, e) && (e.Advance? || e.Range? || e.Snapshot? || e.CancelGet?)
    ensures Base(Apply(s, e), Next(s, e, l))
  {
    if e.Snapshot? {
      forall id | id in s.mover.ids ensures id in l && AccountOk(s, id, l[id]) {
        assert id in s.db.delayed;
      }
    }
    SameStore(s, Apply(s, e), l);
  }

  lemma CancelSaveKeeps(s: State, key: nat, l: Ledger)
    requires Base(s, l) && Enabled(s, CancelSave(key)) && Orderly(s, CancelSave(key))
    ensures Base(Apply(s, CancelSave(key)), l)
  {
    var s' := Apply(s, CancelSave(key));
    var t := s.cancels[key];
    SavedHash(s, t, Ttl(t));
    forall id | id in l ensures AccountOk(s', id, l[id]) {
      if id != t.id {
        Untouched(s, s', id, l[id]);
      } else {
        CanceledAccount(s, s', key, l[id]);
      }
    }
  }

  /** Overwriting the hash of an unsettled id with a canceled task leaves its account in order. */
  lemma CanceledAccount(s: State, s': State, key: nat, a: Account)
    requires key in s.cancels && s' == Apply(s, CancelSave(key)) && Orderly(s, CancelSave(key)) && CancelsOk(s)
    requires s.cancels[key].id in s.db.hashes ==>
               Sane(s.db.hashes[s.cancels[key].id].content, s.cancels[key].id)
    requires AccountOk(s, s.cancels[key].id, a) && (s.cancels[key].id in s.settled ==> a.place == Done)
    ensures AccountOk(s', s.cancels[key].id, a)
  {
    SavedHash(s, s.cancels[key], Ttl(s.cancels[key]));
  }

  // The mover's transaction

  /** The transaction pushes exactly the ids of its snapshot, in its order, and its snapshot is the cleared range. */
  lemma MovedStore(s: State, order: seq<Id>, l: Ledger)
    requires MoverOk(s, l) && Enabled(s, Move(order))
    ensures var db := Apply(s, Move(order)).db;
            && db.list == s.db.list + order
            && db.delayed == s.db.delayed - InRange(s.db.delayed, s.mover.max)
            && (forall id :: id in order <==> id in s.mover.snapshot)
            && db.hashes.Keys == s.db.hashes.Keys + s.mover.snapshot.Keys
            && forall id :: id in s.db.hashes && id !in s.mover.snapshot ==> db.hashes[id] == s.db.hashes[id]
  {
    var snapshot := s.mover.snapshot;
    forall i | 0 <= i < |order| ensures snapshot[order[i]].id == order[i] {
      assert QueuedTask(snapshot[order[i]], order[i], l[order[i]]);
    }
    var ids := seq(|order|, i requires 0 <= i < |order| => snapshot[order[i]].id);
    assert ids == order;
  }

  lemma WrittenBackTask(db: Db, id: Id, p: TaskValue, a: Account, now: Time)
    requires QueuedTask(p, id, a) && id in db.hashes && db.hashes[id].expires.None?
    ensures QueuedTask(WrittenBack(db, id, p, now).content, id, a) && WrittenBack(db, id, p, now).expires.None?
  {
  }

  lemma MovedHash(s: State, order: seq<Id>, id: Id)
    requires Enabled(s, Move(order)) && id in s.mover.snapshot
    ensures var db := Apply(s, Move(order)).db;
            id in db.hashes && db.hashes[id] == WrittenBack(s.db, id, s.mover.snapshot[id], s.clock)
  {
  }

  /** A hash written back from the snapshot is one a worker may get. */
  lemma WrittenBackQueued(s: State, order: seq<Id>, l: Ledger, id: Id)
    requires Base(s, l) && Enabled(s, Move(order)) && id in s.mover.snapshot && id in l
    ensures l[id].place == Delayed && l[id].used <= l[id].granted + 1
    ensures Queued(Apply(s, Move(order)), id, l[id])
  {
    assert id in s.db.delayed;
    assert AccountOk(s, id, l[id]);
    WrittenBackTask(s.db, id, s.mover.snapshot[id], l[id], s.clock);
    MovedHash(s, order, id);
  }

  lemma MoveKeeps(s: State, order: seq<Id>, l: Ledger)
    requires Inv(s, l) && Enabled(s, Move(order))
    ensures Inv(Apply(s, Move(order)), Next(s, Move(order), l))
  {
    MoveRelists(s, order, l);
    RelistedPlaces(s, Apply(s, Move(order)), l, Next(s, Move(order), l), order);
    MovedAccounts(s, order, l);
    MovedHashes(s, order, l);
  }

  /** What the transaction does to the places of ids. */
  predicate Relisted(s: State, s': State, l: Ledger, l': Ledger, order: seq<Id>) {
    && s'.hands == s.hands && s'.settled == s.settled && l'.Keys == l.Keys
    && s'.db.list == s.db.list + order
    && (forall id :: id in s'.db.delayed ==> id in s.db.delayed && id !in order)
    && (forall i, j :: 0 <= i < j < |order| ==> order[i] != order[j])
    && (forall id :: id in order ==> id in l && l[id].place == Delayed)
    && (forall id :: id in l ==> l'[id] == if id in order then l[id].(place := Listed) else l[id])
  }

  lemma MoveRelists(s: State, order: seq<Id>, l: Ledger)
    requires DelayedOk(s, l) && MoverOk(s, l) && Exact(s) && Enabled(s, Move(order)) && Base(s, l)
    ensures Relisted(s, Apply(s, Move(order)), l, Next(s, Move(order), l), order)
  {
    MovedStore(s, order, l);
    forall id | id in order ensures id in l && l[id].place == Delayed {
      assert id in InRange(s.db.delayed, s.mover.max);
    }
    forall id | id in Apply(s, Move(order)).db.delayed ensures id in s.db.delayed && id !in order {
      assert id !in InRange(s.db.delayed, s.mover.max);
    }
  }

  lemma RelistedPlaces(s: State, s': State, l: Ledger, l': Ledger, order: seq<Id>)
    requires ListOk(s, l) && DelayedOk(s, l) && HandsOk(s, l) && DoneOk(s, l) && Relisted(s, s', l, l', order)
    ensures ListOk(s', l') && DelayedOk(s', l') && HandsOk(s', l') && DoneOk(s', l')
  {
    Appended(s.db.list, order, l, l');
  }

  lemma Appended(list: seq<Id>, order: seq<Id>, l: Ledger, l': Ledger)
    requires forall i, j :: 0 <= i < j < |list| ==> list[i] != list[j]
    requires forall i, j :: 0 <= i < j < |order| ==> order[i] != order[j]
    requires forall i :: 0 <= i < |list| ==> list[i] in l && l[list[i]].place == Listed
    requires forall id :: id in order ==> id in l && l[id].place == Delayed
    requires l'.Keys == l.Keys
    requires forall id :: id in l ==> l'[id] == if id in order then l[id].(place := Listed) else l[id]
    ensures forall i, j :: 0 <= i < j < |list + order| ==> (list + order)[i] != (list + order)[j]
    ensures forall i :: 0 <= i < |list + order| ==> (list + order)[i] in l' && l'[(list + order)[i]].place == Listed
  {
    forall i, j | 0 <= i < j < |list + order| ensures (list + order)[i] != (list + order)[j] {
      if i < |list| <= j {
        assert order[j - |list|] in order;
        assert l[list[i]].place == Listed;
      }
    }
  }

  lemma MovedAccounts(s: State, order: seq<Id>, l: Ledger)
    requires Inv(s, l) && Enabled(s, Move(order))
    ensures var s', l' := Apply(s, Move(order)), Next(s, Move(order), l);
            forall id :: id in l' ==> AccountOk(s', id, l'[id])
  {
    var s', l' := Apply(s, Move(order)), Next(s, Move(order), l);
    MovedStore(s, order, l);
    forall id | id in l' ensures AccountOk(s', id, l'[id]) {
      if id in s.mover.snapshot {
        WrittenBackQueued(s, order, l, id);
        assert id in order;
      } else {
        assert id !in InRange(s.db.delayed, s.mover.max);
        Untouched(s, s', id, l[id]);
      }
    }
  }

  lemma MovedHashes(s: State, order: seq<Id>, l: Ledger)
    requires Inv(s, l) && Enabled(s, Move(order))
    ensures var s', l' := Apply(s, Move(order)), Next(s, Move(order), l);
            l'.Keys == l.Keys && HashesOk(s', l') && CancelsOk(s')
  {
    MovedStore(s, order, l);
    forall id | id in s.mover.snapshot ensures Sane(Apply(s, Move(order)).db.hashes[id].content, id) {
      WrittenBackQueued(s, order, l, id);
    }
  }

  // Every event

  /** Every event but the mover's transaction keeps the accounts, whatever ZADD falls into the mover's window. */
  lemma StepKeepsBase(s: State, e: Event, l: Ledger)
    requires Base(s, l) && Enabled(s, e) && !e.Move?
    requires e.Submit? || e.CancelSave? ==> Orderly(s, e)
    ensures Base(Apply(s, e), Next(s, e, l))
  {
    match e
    case Submit(key, t) => SubmitKeeps(s, key, t, l);
    case File(key) => FileKeeps(s, key, l);
    case Enqueue(key) => EnqueueKeeps(s, key, l);
    case Pop(key) => PopKeeps(s, key, l);
    case Load(key) => LoadKeeps(s, key, l);
    case Deliver(key, Begin) => BeginKeeps(s, key, l);
    case Deliver(key, Save) => SaveKeeps(s, key, l);
    case Deliver(key, StoreRetry) => StoreRetryKeeps(s, key, l);
    case Deliver(key, PushRetry) => PushRetryKeeps(s, key, l);
    case Deliver(key, event) => InMemoryKeeps(s, key, event, l);
    case CancelSave(key) => CancelSaveKeeps(s, key, l);
    case _ => ReadKeeps(s, e, l);
  }
}
