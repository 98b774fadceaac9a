/**
 The invariant of the protocol. Every published id has one account, saying the one place the id is in and how many
 handler runs it was granted and has used; the invariant ties the accounts to the list, the delayed set, the hashes,
 the hands in flight and the mover, and each event keeps it.
 */
module Accounts {
  import opened Wrappers
  import opened Tasks
  import opened Redis
  import opened Protocol
  import Deliveries

  datatype Place = Listed | Delayed | Held(key: nat) | Done

  /** Where the id is, the retries it was published with, and the handler runs started for it. */
  datatype Account = Account(place: Place, granted: int, used: nat)

  type Ledger = map<Id, Account>

  predicate Sane(t: TaskValue, id: Id) {
    t.id == id && t.payload != Null && t.maxRetries >= 0
  }

  /** A stored task some worker may still get: it is canceled, or its retries tell the runs it has left. */
  predicate QueuedTask(t: TaskValue, id: Id, a: Account) {
    && Sane(t, id)
    && (t.status == WAITING || t.status == FAILED || t.status == CANCELED)
    && (t.status == CANCELED || t.maxRetries + a.used == a.granted)
  }

  /** The id's hash is there and never expires. */
  predicate Kept(s: State, id: Id) {
    id in s.db.hashes && s.db.hashes[id].expires.None?
  }

  predicate Queued(s: State, id: Id, a: Account) {
    Kept(s, id) && QueuedTask(s.db.hashes[id].content, id, a)
  }

  predicate Later(dest: Dest) {
    dest.At? ==> dest.score >= 0
  }

  predicate DeliveryOk(s: State, d: Deliveries.Delivery, id: Id, a: Account) {
    && Sane(d.task, id)
    && match d.stage
       case Starting =>
         && Kept(s, id) && (d.task.oldStatus == WAITING || d.task.oldStatus == FAILED)
         && d.task.maxRetries + a.used == a.granted
       case Running => d.task.maxRetries + a.used == a.granted + 1 && (d.task.maxRetries > 0 ==> Kept(s, id))
       case Saving => true
       case Storing =>
         && Kept(s, id) && (d.task.status == FAILED || d.task.status == CANCELED)
         && d.task.maxRetries + a.used == a.granted
       case Pushing(dest) =>
         && Queued(s, id, a) && Later(dest)
         && (d.task.status == CANCELED ==> s.db.hashes[id].content.status == CANCELED)
       case Closed => false
  }

  predicate HandOk(s: State, h: Hand, id: Id, a: Account) {
    match h
    case Filing(t) =>
      && Sane(t, id) && t.status == WAITING && a.used == 0 && t.maxRetries == a.granted && id !in s.db.hashes
    case Filed(t, dest) => t.id == id && Queued(s, id, a) && Later(dest)
    case Popped(popped) => popped == id && Queued(s, id, a)
    case Delivering(d) => DeliveryOk(s, d, id, a)
  }

  predicate AccountOk(s: State, id: Id, a: Account) {
    && a.used <= a.granted + 1
    && match a.place
       case Listed => id in s.db.list && Queued(s, id, a)
       case Delayed => id in s.db.delayed && s.db.delayed[id] >= 0 && Queued(s, id, a)
       case Held(key) => key in s.hands && HandOk(s, s.hands[key], id, a)
       case Done => id in s.settled
  }

  predicate ListOk(s: State, l: Ledger) {
    && (forall i, j :: 0 <= i < j < |s.db.list| ==> s.db.list[i] != s.db.list[j])
    && (forall i :: 0 <= i < |s.db.list| ==> s.db.list[i] in l && l[s.db.list[i]].place == Listed)
  }

  predicate DelayedOk(s: State, l: Ledger) {
    forall id :: id in s.db.delayed ==> id in l && l[id].place == Delayed
  }

  predicate HandsOk(s: State, l: Ledger) {
    forall key :: key in s.hands ==>
      && (s.hands[key].Delivering? ==> Deliveries.Consistent(s.hands[key].delivery))
      && (Holds(s.hands[key]).Some? ==>
            Holds(s.hands[key]).value in l && l[Holds(s.hands[key]).value].place == Held(key))
  }

  predicate DoneOk(s: State, l: Ledger) {
    forall id :: id in s.settled ==> id in l && l[id].place == Done
  }

  predicate HashesOk(s: State, l: Ledger) {
    forall id :: id in s.db.hashes ==> id in l && Sane(s.db.hashes[id].content, id)
  }

  predicate CancelsOk(s: State) {
    forall key :: key in s.cancels ==>
      && Sane(s.cancels[key], s.cancels[key].id) && s.cancels[key].status == CANCELED
      && s.cancels[key].id in s.db.hashes
  }

  /** What the mover has read is still in its range, and its snapshot is of tasks a worker may get. */
  predicate MoverOk(s: State, l: Ledger) {
    match s.mover
    case Idle => true
    case Ranged(max, ids) => max <= s.clock && ids != {} && ids <= InRange(s.db.delayed, max)
    case Loaded(max, snapshot) =>
      && max <= s.clock && snapshot != map[] && snapshot.Keys <= InRange(s.db.delayed, max)
      && forall id :: id in snapshot ==> id in l && QueuedTask(snapshot[id], id, l[id])
  }

  predicate Base(s: State, l: Ledger) {
    && s.clock >= 0 && l.Keys == s.published
    && ListOk(s, l) && DelayedOk(s, l) && HandsOk(s, l) && DoneOk(s, l)
    && (forall id :: id in l ==> AccountOk(s, id, l[id]))
    && HashesOk(s, l) && CancelsOk(s) && MoverOk(s, l)
  }

  /** What the mover's transaction will clear is what its first read saw. */
  predicate Exact(s: State) {
    match s.mover
    case Idle => true
    case Ranged(max, ids) => ids == InRange(s.db.delayed, max)
    case Loaded(max, snapshot) => snapshot.Keys == InRange(s.db.delayed, max)
  }

  predicate Inv(s: State, l: Ledger) {
    Base(s, l) && Exact(s)
  }

  function PlaceOf(dest: Dest): Place {
    if dest.At? then Delayed else Listed
  }

  /** The accounts after an event. */
  function Next(s: State, e: Event, l: Ledger): Ledger
    requires Enabled(s, e) && Base(s, l)
  {
    match e
    case Submit(key, t) => l[t.id := Account(Held(key), t.maxRetries, 0)]
    case Enqueue(key) =>
      var id := s.hands[key].task.id;
      l[id := l[id].(place := PlaceOf(s.hands[key].dest))]
    case Pop(key) =>
      var id := s.db.list[|s.db.list| - 1];
      l[id := l[id].(place := Held(key))]
    case Load(key) =>
      var id := s.hands[key].id;
      var t := Loadable(s.db, id, s.clock);
      if t.Some? && t.value.status == CANCELED then l[id := l[id].(place := Done)] else l
    case Deliver(key, event) =>
      var d := s.hands[key].delivery;
      var id := d.task.id;
      (match event
       case Begin => l[id := l[id].(used := l[id].used + 1)]
       case Save => l[id := l[id].(place := Done)]
       case PushRetry => l[id := l[id].(place := PlaceOf(d.stage.dest))]
       case _ => l)
    case Move(order) =>
      map id | id in l :: if id in s.mover.snapshot then l[id].(place := Listed) else l[id]
    case _ => l
  }

  lemma InitialInv(s: State)
    requires Initial(s)
    ensures Inv(s, map[])
  {
  }

  /** An account an event does not touch stays in order. */
  lemma Untouched(s: State, s': State, id: Id, a: Account)
    requires AccountOk(s, id, a)
    requires id in s.db.list ==> id in s'.db.list
    requires id in s.db.delayed ==> id in s'.db.delayed && s'.db.delayed[id] == s.db.delayed[id]
    requires id in s.db.hashes <==> id in s'.db.hashes
    requires id in s.db.hashes ==> s'.db.hashes[id] == s.db.hashes[id]
    requires a.place.Held? && a.place.key in s.hands ==>
               a.place.key in s'.hands && s'.hands[a.place.key] == s.hands[a.place.key]
    requires s.settled <= s'.settled
    ensures AccountOk(s', id, a)
  {
  }

  /** Saving a task leaves its hash sane, and keeps a hash that never expires that way unless a TTL is asked for. */
  lemma SavedHash(s: State, t: TaskValue, ttl: Option<int>)
    requires t.id in s.db.hashes ==> Sane(s.db.hashes[t.id].content, t.id)
    requires Sane(t, t.id)
    ensures var db := Saved(s.db, t, ttl, s.clock);
            && db.list == s.db.list && db.delayed == s.db.delayed
            && db.hashes.Keys == s.db.hashes.Keys + {t.id}
            && Sane(db.hashes[t.id].content, t.id)
            && db.hashes[t.id].content.status == t.status && db.hashes[t.id].content.maxRetries == t.maxRetries
            && (ttl.None? && (t.id !in s.db.hashes || Kept(s, t.id)) ==> db.hashes[t.id].expires.None?)
            && forall id :: id in s.db.hashes && id != t.id ==> db.hashes[id] == s.db.hashes[id]
  {
  }
}
