/**
 The queue as a transition system: publishers, any number of workers, calls of `Cancel`, and the one mover of the queue,
 interleaving at the granularity of single Redis commands. A hash is represented by the task it loads as.
 */
module Protocol {
  import opened Clock
  import opened Wrappers
  import opened Tasks
  import opened CodecLaws
  import opened Redis
  import Deliveries

  type Db = Store<TaskValue>

  /** Something in flight between two Redis commands. */
  datatype Hand =
    | Filing(task: TaskValue)              // PublishTask called, nothing written yet
    | Filed(task: TaskValue, dest: Dest)   // hash written, id not pushed yet
    | Popped(id: Id)                       // BRPOP done, payload not read yet
    | Delivering(delivery: Deliveries.Delivery)

  /** The mover between its commands: after the range read, after the payload snapshot. */
  datatype Mover =
    | Idle
    | Ranged(max: Time, ids: set<Id>)
    | Loaded(max: Time, snapshot: map<Id, TaskValue>)

  datatype State = State(
    clock: Time,
    db: Db,
    mover: Mover,
    hands: map<nat, Hand>,
    cancels: map<nat, TaskValue>,
    published: set<Id>,
    settled: set<Id>)

  datatype Event =
    | Advance(to: Time)
    | Submit(key: nat, task: TaskValue)       // Publish: NewTask and PublishTask
    | File(key: nat)                          // its HMSET
    | Enqueue(key: nat)                       // its RPUSH, LPUSH or ZADD
    | Pop(key: nat)                           // a worker's BRPOP
    | Load(key: nat)                          // its MULTIHGETALL, and the start of Handle
    | Deliver(key: nat, event: Deliveries.Event)
    | Range(max: Time)                        // the mover's ZRANGEBYSCORE
    | Snapshot                                // its MULTIHGETALL
    | Move(order: seq<Id>)                    // its MULTI/EXEC, pushing in this order
    | CancelGet(key: nat, id: Id)             // Cancel: Get and MarkAsCanceled
    | CancelSave(key: nat)                    // Cancel: Save

  // Redis commands on hashes that load as tasks

  /** HMSET of what `Serialize` writes for `t`. */
  function Saved(db: Db, t: TaskValue, ttl: Option<int>, now: Time): Db {
    var had := Content(db, t.id, now);
    Write(db, t.id, Merged(if had.Some? then had.value else BLANK, t), ttl, now)
  }

  /** The expiry `Save` asks for: the task's TTL in whole seconds once it is finished, unless that is zero. */
  function Ttl(t: TaskValue): Option<int> {
    if t.Finished() && WholeSeconds(t.ttl) != 0 then Some(WholeSeconds(t.ttl)) else None
  }

  /** The id a hand is responsible for. */
  function Holds(h: Hand): Option<Id> {
    match h
    case Filing(t) => Some(t.id)
    case Filed(t, _) => Some(t.id)
    case Popped(id) => Some(id)
    case Delivering(d) => if d.stage.Closed? then None else Some(d.task.id)
  }

  /** What the mover's transaction leaves: every snapshot hash written back, every id pushed, the range cleared. */
  function Moved(db: Db, max: Time, snapshot: map<Id, TaskValue>, order: seq<Id>, now: Time): Db
    requires forall i :: 0 <= i < |order| ==> order[i] in snapshot
  {
    Store(
      db.list + seq(|order|, i requires 0 <= i < |order| => snapshot[order[i]].id),
      db.delayed - InRange(db.delayed, max),
      db.hashes + (map id | id in snapshot :: WrittenBack(db, id, snapshot[id], now)))
  }

  function WrittenBack(db: Db, id: Id, t: TaskValue, now: Time): Cell<TaskValue> {
    var had := Content(db, id, now);
    Write(db, id, Overlaid(if had.Some? then had.value else BLANK, t), None, now).hashes[id]
  }

  /** The task `TaskFromPayload` makes of the hash, unless the hash is gone or has no payload. */
  function Loadable(db: Db, id: Id, now: Time): Option<TaskValue> {
    var t := Content(db, id, now);
    if t.Some? && t.value.payload != Null then Some(t.value.(oldStatus := t.value.status)) else None
  }

  predicate Enabled(s: State, e: Event) {
    match e
    case Advance(to) => to >= s.clock
    case Submit(key, t) => key !in s.hands && NewlyMade(t) && t.id !in s.published
    case File(key) => key in s.hands && s.hands[key].Filing?
    case Enqueue(key) => key in s.hands && s.hands[key].Filed?
    case Pop(key) => key !in s.hands && s.db.list != []
    case Load(key) => key in s.hands && s.hands[key].Popped?
    case Deliver(key, event) =>
      key in s.hands && s.hands[key].Delivering? && Deliveries.Enabled(s.hands[key].delivery, event, s.clock)
    case Range(max) => s.mover.Idle? && max <= s.clock
    case Snapshot => s.mover.Ranged?
    case Move(order) =>
      && s.mover.Loaded?
      && (forall i :: 0 <= i < |order| ==> order[i] in s.mover.snapshot)
      && (forall i, j :: 0 <= i < j < |order| ==> order[i] != order[j])
      && (forall id :: id in s.mover.snapshot ==> id in order)
    case CancelGet(key, id) => key !in s.cancels && Loadable(s.db, id, s.clock).Some?
    case CancelSave(key) => key in s.cancels
  }

  /** A task as `NewTask` makes it. */
  predicate NewlyMade(t: TaskValue) {
    t.status == WAITING && t.oldStatus == WAITING && t.error == Stored(Null) && t.result == Null
  }

  function Delivered(s: State, key: nat, event: Deliveries.Event): State
    requires Enabled(s, Deliver(key, event))
  {
    var d := s.hands[key].delivery;
    var held := s.(hands := s.hands[key := Delivering(Deliveries.Apply(d, event, s.clock))]);
    match event
    case Begin => held.(db := Saved(s.db, d.task, Ttl(d.task), s.clock))
    case Save => held.(db := Saved(s.db, d.task, Ttl(d.task), s.clock), settled := s.settled + {d.task.id})
    case StoreRetry => held.(db := Saved(s.db, d.task, None, s.clock))
    case PushRetry => held.(db := Push(s.db, d.task.id, d.stage.dest))
    case _ => held
  }

  function Apply(s: State, e: Event): State
    requires Enabled(s, e)
  {
    match e
    case Advance(to) => s.(clock := to)
    case Submit(key, t) => s.(hands := s.hands[key := Filing(t)], published := s.published + {t.id})
    case File(key) =>
      var t := s.hands[key].task;
      s.(db := Saved(s.db, t, None, s.clock), hands := s.hands[key := Filed(t, Destination(t.eta, s.clock))])
    case Enqueue(key) =>
      s.(db := Push(s.db, s.hands[key].task.id, s.hands[key].dest), hands := s.hands - {key})
    case Pop(key) =>
      s.(db := Redis.Popped(s.db), hands := s.hands[key := Hand.Popped(s.db.list[|s.db.list| - 1])])
    case Load(key) =>
      var id := s.hands[key].id;
      (match Loadable(s.db, id, s.clock)
       case None => s.(hands := s.hands - {key})
       case Some(t) =>
         if t.status == CANCELED then s.(hands := s.hands - {key}, settled := s.settled + {id})
         else s.(hands := s.hands[key := Delivering(Deliveries.Fresh(t, s.clock))]))
    case Deliver(key, event) => Delivered(s, key, event)
    case Range(max) =>
      var ids := InRange(s.db.delayed, max);
      s.(mover := if ids == {} then Idle else Ranged(max, ids))
    case Snapshot =>
      var snapshot := map id | id in s.mover.ids && Visible(s.db, id, s.clock) :: s.db.hashes[id].content;
      s.(mover := if snapshot == map[] then Idle else Loaded(s.mover.max, snapshot))
    case Move(order) => s.(db := Moved(s.db, s.mover.max, s.mover.snapshot, order, s.clock), mover := Idle)
    case CancelGet(key, id) =>
      s.(cancels := s.cancels[key := Loadable(s.db, id, s.clock).value.Canceled(s.clock)])
    case CancelSave(key) =>
      s.(db := Saved(s.db, s.cancels[key], Ttl(s.cancels[key]), s.clock), cancels := s.cancels - {key})
  }

  predicate Legal(s: State, es: seq<Event>)
    decreases |es|
  {
    es == [] || (Enabled(s, es[0]) && Legal(Apply(s, es[0]), es[1..]))
  }

  function Replay(s: State, es: seq<Event>): State
    requires Legal(s, es)
    decreases |es|
  {
    if es == [] then s else Replay(Apply(s, es[0]), es[1..])
  }

  /** An empty queue. */
  predicate Initial(s: State) {
    && s.clock >= 0 && s.db == Store([], map[], map[]) && s.mover == Idle
    && s.hands == map[] && s.cancels == map[] && s.published == {} && s.settled == {}
  }

  // What a run must respect for the safety properties

  /** A ZADD between the mover's range read and its transaction must lie after the range. */
  predicate Clear(s: State, dest: Dest) {
    dest.At? && !s.mover.Idle? ==> dest.score > Second(s.mover.max)
  }

  /** A save by `Cancel` gives a task that is still queued no expiry. */
  predicate Harmless(s: State, t: TaskValue) {
    Ttl(t).Some? ==> t.id in s.settled
  }

  /** The id a publication or a retry is about to push, and where to. */
  function Pushes(s: State, e: Event): Option<Dest> {
    match e
    case Enqueue(key) => if key in s.hands && s.hands[key].Filed? then Some(s.hands[key].dest) else None
    case Deliver(key, PushRetry) =>
      if key in s.hands && s.hands[key].Delivering? && s.hands[key].delivery.stage.Pushing?
      then Some(s.hands[key].delivery.stage.dest) else None
    case _ => None
  }

  /** A ZADD is made before the second of its score. */
  predicate Prompt(s: State, e: Event) {
    Pushes(s, e).Some? && Pushes(s, e).value.At? ==> Pushes(s, e).value.score > Second(s.clock)
  }

  predicate Orderly(s: State, e: Event) {
    && (Pushes(s, e).Some? ==> Clear(s, Pushes(s, e).value))
    && Considerate(s, e)
  }

  /** What a caller answers for: payloads, retries, and cancels that do not let a queued task expire. */
  predicate Considerate(s: State, e: Event) {
    && (e.Submit? ==> e.task.payload != Null && e.task.maxRetries >= 0)
    && (e.CancelSave? && e.key in s.cancels ==> Harmless(s, s.cancels[e.key]))
  }

  predicate AllOrderly(s: State, es: seq<Event>)
    requires Legal(s, es)
    decreases |es|
  {
    es == [] || (Orderly(s, es[0]) && AllOrderly(Apply(s, es[0]), es[1..]))
  }
}
