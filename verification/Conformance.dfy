/**
 The programs conform to the protocol: publishing, popping, a tick of the mover, and handling a request are each a short
 run of the protocol's events, with the same effect on the queue.
 */
module Conformance {
  import opened Clock
  import opened Wrappers
  import opened Tasks
  import opened Codec
  import opened Redis
  import opened Broker
  import opened Refinement
  import opened Handlers
  import opened Consumers
  import Panics
  import Queues
  import Countdown
  import Draining
  import Deliveries
  import Protocol

  type State = Protocol.State
  type Event = Protocol.Event

  lemma OneEvent(s: State, e: Event)
    requires Protocol.Enabled(s, e)
    ensures Protocol.Legal(s, [e]) && Protocol.Replay(s, [e]) == Protocol.Apply(s, e)
  {
    assert [e][1..] == [];
  }

  lemma EventThen(s: State, e: Event, es: seq<Event>)
    requires Protocol.Enabled(s, e) && Protocol.Legal(Protocol.Apply(s, e), es)
    ensures Protocol.Legal(s, [e] + es) && Protocol.Replay(s, [e] + es) == Protocol.Replay(Protocol.Apply(s, e), es)
  {
    assert ([e] + es)[1..] == es;
  }

  lemma TwoEvents(s: State, a: Event, b: Event)
    requires Protocol.Enabled(s, a) && Protocol.Enabled(Protocol.Apply(s, a), b)
    ensures Protocol.Legal(s, [a, b]) && Protocol.Replay(s, [a, b]) == Protocol.Apply(Protocol.Apply(s, a), b)
  {
    OneEvent(Protocol.Apply(s, a), b);
    EventThen(s, a, [b]);
    assert [a] + [b] == [a, b];
  }

  lemma ThreeEvents(s: State, a: Event, b: Event, c: Event)
    requires Protocol.Enabled(s, a) && Protocol.Enabled(Protocol.Apply(s, a), b)
    requires Protocol.Enabled(Protocol.Apply(Protocol.Apply(s, a), b), c)
    ensures Protocol.Legal(s, [a, b, c])
    ensures Protocol.Replay(s, [a, b, c]) == Protocol.Apply(Protocol.Apply(Protocol.Apply(s, a), b), c)
  {
    TwoEvents(Protocol.Apply(s, a), b, c);
    EventThen(s, a, [b, c]);
    assert [a] + [b, c] == [a, b, c];
  }

  // Publishing and popping

  lemma PublishingDb(s: State, key: nat, t: TaskValue)
    requires Protocol.Enabled(s, Protocol.Submit(key, t))
    ensures var s1 := Protocol.Apply(s, Protocol.Submit(key, t));
            && Protocol.Enabled(s1, Protocol.File(key))
            && var s2 := Protocol.Apply(s1, Protocol.File(key));
               && Protocol.Enabled(s2, Protocol.Enqueue(key))
               && Protocol.Apply(s2, Protocol.Enqueue(key)).db ==
                  Push(Protocol.Saved(s.db, t, None, s.clock), t.id, Destination(t.eta, s.clock))
  {
  }

  /** `Publish` is a submission, its HMSET and its push. */
  lemma PublishIsARun(s: State, key: nat, t: TaskValue, st: Store<Data>, ser: Serializer)
    requires ser.Lawful() && Represents(st, s.db, ser) && Writable(t, ser)
    requires Protocol.Enabled(s, Protocol.Submit(key, t))
    ensures var es := [Protocol.Submit(key, t), Protocol.File(key), Protocol.Enqueue(key)];
            && Protocol.Legal(s, es)
            && Represents(Queues.Sent(st, t, ser, s.clock), Protocol.Replay(s, es).db, ser)
  {
    PublishingDb(s, key, t);
    ThreeEvents(s, Protocol.Submit(key, t), Protocol.File(key), Protocol.Enqueue(key));
    PublishedRefines(st, s.db, t, s.clock, ser);
  }

  lemma PoppedRefines(st: Store<Data>, db: Protocol.Db, ser: Serializer)
    requires Represents(st, db, ser) && st.list != []
    ensures Represents(Popped(st), Popped(db), ser)
  {
  }

  /** Where a pop and a load leave the hand: with what the hash loads as, unless there is nothing or it is canceled. */
  predicate Given(s: State, s': State, key: nat, loaded: Option<TaskValue>) {
    if loaded.None? || loaded.value.status == CANCELED then key !in s'.hands
    else s'.hands == s.hands[key := Protocol.Delivering(Deliveries.Fresh(loaded.value, s.clock))]
  }

  lemma ConsumeDb(s: State, key: nat)
    requires s.db.list != [] && key !in s.hands
    ensures var s1 := Protocol.Apply(s, Protocol.Pop(key));
            && Protocol.Enabled(s1, Protocol.Load(key))
            && var s2 := Protocol.Apply(s1, Protocol.Load(key));
               && s2.db == Popped(s.db)
               && Given(s, s2, key, Protocol.Loadable(Popped(s.db), s.db.list[|s.db.list| - 1], s.clock))
  {
  }

  /** `Consume` is a pop and a load; the hand gets the task the worker decodes. */
  lemma ConsumeIsARun(s: State, key: nat, st: Store<Data>, ser: Serializer)
    requires Represents(st, s.db, ser) && st.list != [] && key !in s.hands
    ensures var es, id := [Protocol.Pop(key), Protocol.Load(key)], st.list[|st.list| - 1];
            && Protocol.Legal(s, es)
            && Represents(Popped(st), Protocol.Replay(s, es).db, ser)
            && var held := Held(st, id, s.clock);
               Given(s, Protocol.Replay(s, es), key, if held == map[] then None else Some(Decode(held, ser).value))
  {
    var id := st.list[|st.list| - 1];
    PoppedRefines(st, s.db, ser);
    LoadRefines(Popped(st), Popped(s.db), id, s.clock, ser);
    HeldAfterPop(st, id, s.clock);
    ConsumeDb(s, key);
    TwoEvents(s, Protocol.Pop(key), Protocol.Load(key));
  }

  lemma HeldAfterPop(st: Store<Data>, id: Id, now: Time)
    requires st.list != []
    ensures Held(Popped(st), id, now) == Held(st, id, now)
  {
  }

  // The mover

  lemma TickDb(s: State, max: Time, order: seq<Id>)
    requires Protocol.Enabled(s, Protocol.Range(max))
    requires order != [] && forall i, j :: 0 <= i < j < |order| ==> order[i] != order[j]
    requires forall id :: id in order <==> id in SnapshotOf(s.db, InRange(s.db.delayed, max), s.clock)
    ensures var s1 := Protocol.Apply(s, Protocol.Range(max));
            && Protocol.Enabled(s1, Protocol.Snapshot)
            && var s2 := Protocol.Apply(s1, Protocol.Snapshot);
               && Protocol.Enabled(s2, Protocol.Move(order))
               && Protocol.Apply(s2, Protocol.Move(order)).db ==
                  Protocol.Moved(s.db, max, SnapshotOf(s.db, InRange(s.db.delayed, max), s.clock), order, s.clock)
  {
    assert order[0] in SnapshotOf(s.db, InRange(s.db.delayed, max), s.clock);
    assert order[0] in InRange(s.db.delayed, max);
  }

  /** A tick that reads any payload is a range read, a snapshot and a transaction. */
  lemma TickIsARun(s: State, max: Time, st: Store<Data>, order: seq<Id>, results: seq<Data>, ser: Serializer)
    requires Represents(st, s.db, ser) && Protocol.Enabled(s, Protocol.Range(max)) && results != []
    requires forall id :: id in s.db.hashes ==> s.db.hashes[id].content.id == id
    requires Snapshot(st, InRange(st.delayed, max), s.clock, order, results)
    ensures var es := [Protocol.Range(max), Protocol.Snapshot, Protocol.Move(order)];
            && Protocol.Legal(s, es)
            && Represents(Transacted(st, "", results, max, s.clock), Protocol.Replay(s, es).db, ser)
  {
    MoverRefines(st, s.db, s.clock, st, s.db, s.clock, InRange(st.delayed, max), max, order, results, ser);
    TickDb(s, max, order);
    ThreeEvents(s, Protocol.Range(max), Protocol.Snapshot, Protocol.Move(order));
  }

  // Handling a request

  /** The hand `key` is delivering `t`, which has just been loaded. */
  predicate JustLoaded(s: State, key: nat, t: TaskValue) {
    && key in s.hands && s.hands[key] == Protocol.Delivering(Deliveries.Fresh(t, s.clock)) && t.maxRetries >= 0
  }

  /** Once a delivery has settled its task as `t`: what is left to do for it. */
  function Closing(key: nat, t: TaskValue, again: bool): seq<Event> {
    if again then [Protocol.Deliver(key, Deliveries.StoreRetry), Protocol.Deliver(key, Deliveries.PushRetry)]
    else [Protocol.Deliver(key, Deliveries.Save)]
  }

  /** The queue after it. */
  function ClosedDb(db: Protocol.Db, t: TaskValue, again: bool, now: Time): Protocol.Db {
    if again then Push(Protocol.Saved(db, t, None, now), t.id, Destination(t.eta, now))
    else Protocol.Saved(db, t, Protocol.Ttl(t), now)
  }

  lemma ClosingRun(s: State, key: nat, d: Deliveries.Delivery, again: bool)
    requires key in s.hands && s.hands[key] == Protocol.Delivering(d) && d.task.maxRetries >= 0
    requires d.stage == if again then Deliveries.Storing else Deliveries.Saving
    ensures Protocol.Legal(s, Closing(key, d.task, again))
    ensures Protocol.Replay(s, Closing(key, d.task, again)).db == ClosedDb(s.db, d.task, again, s.clock)
  {
    if again {
      TwoEvents(s, Protocol.Deliver(key, Deliveries.StoreRetry), Protocol.Deliver(key, Deliveries.PushRetry));
    } else {
      OneEvent(s, Protocol.Deliver(key, Deliveries.Save));
    }
  }

  /** The events of a handler's call: its return, or its panic and what the worker hears of it. */
  function Calling(key: nat, ms: seq<Middleware>, script: Script, at: Times): seq<Event> {
    match script.outcome
    case Done(err) => [Protocol.Advance(at.back), Protocol.Deliver(key, Deliveries.Return(err))]
    case Panicked(failure) =>
      var left := if Panics.Direct(ms) then Some(failure) else None;
      [Protocol.Advance(at.back), Protocol.Deliver(key, Deliveries.Panic(left)),
       Protocol.Advance(at.heard), Protocol.Deliver(key, Deliveries.Receive)]
  }

  /** The error `handleError` is first called with, and when. */
  function Verdict(ms: seq<Middleware>, script: Script, at: Times): (Option<Failure>, Time) {
    match script.outcome
    case Done(err) => (err, at.back)
    case Panicked(failure) => (if Panics.Direct(ms) then Some(failure) else None, at.heard)
  }

  /** The queue while the handler runs, and the delivery with it. */
  predicate Running(s: State, key: nat, t: TaskValue) {
    && key in s.hands && s.hands[key].Delivering?
    && var d := s.hands[key].delivery;
       d.task == t && t.status == PROCESSING && t.maxRetries >= 0 && d.stage.Running? && d.handler.Busy? && d.waiting
  }

  /** The delivery has settled on what `handleError` makes of the error. */
  predicate SettledAs(s: State, s': State, key: nat, t: TaskValue, err: Option<Failure>, now: Time)
    requires t.maxRetries >= 0
  {
    && s'.db == s.db && s'.clock == now && key in s'.hands && s'.hands[key].Delivering?
    && var d := s'.hands[key].delivery;
       && d.task == Deliveries.Settle(t, err, now) && d.task.maxRetries >= 0
       && d.stage == if err.Some? && t.maxRetries > 0 then Deliveries.Storing else Deliveries.Saving
  }

  lemma ReturnRun(s: State, key: nat, t: TaskValue, err: Option<Failure>, back: Time)
    requires Running(s, key, t) && s.clock <= back
    ensures var es := [Protocol.Advance(back), Protocol.Deliver(key, Deliveries.Return(err))];
            Protocol.Legal(s, es) && SettledAs(s, Protocol.Replay(s, es), key, t, err, back)
  {
    TwoEvents(s, Protocol.Advance(back), Protocol.Deliver(key, Deliveries.Return(err)));
  }

  lemma PanicRun(s: State, key: nat, t: TaskValue, left: Option<Failure>, back: Time, heard: Time)
    requires Running(s, key, t) && s.clock <= back <= heard
    ensures var es := [Protocol.Advance(back), Protocol.Deliver(key, Deliveries.Panic(left)),
                       Protocol.Advance(heard), Protocol.Deliver(key, Deliveries.Receive)];
            Protocol.Legal(s, es) && SettledAs(s, Protocol.Replay(s, es), key, t, left, heard)
  {
    var a, b := Protocol.Advance(back), Protocol.Deliver(key, Deliveries.Panic(left));
    var c, e := Protocol.Advance(heard), Protocol.Deliver(key, Deliveries.Receive);
    var s1 := Protocol.Apply(s, a);
    ThreeEvents(s1, b, c, e);
    EventThen(s, a, [b, c, e]);
    assert [a] + [b, c, e] == [a, b, c, e];
  }

  lemma {:induction false} Joined(s: State, a: seq<Event>, b: seq<Event>)
    requires Protocol.Legal(s, a) && Protocol.Legal(Protocol.Replay(s, a), b)
    ensures Protocol.Legal(s, a + b) && Protocol.Replay(s, a + b) == Protocol.Replay(Protocol.Replay(s, a), b)
    decreases |a|
  {
    if a == [] {
      assert a + b == b;
    } else {
      Joined(Protocol.Apply(s, a[0]), a[1..], b);
      assert (a + b)[1..] == a[1..] + b;
    }
  }

  /** The whole delivery. */
  function Handling(key: nat, t: TaskValue, ms: seq<Middleware>, script: Script, at: Times): seq<Event>
    requires t.maxRetries >= 0
  {
    var (err, when) := Verdict(ms, script, at);
    [Protocol.Deliver(key, Deliveries.Begin)]
    + (Calling(key, ms, script, at)
       + Closing(key, Deliveries.Settle(t.Processing(at.start), err, when), err.Some? && t.maxRetries > 0))
  }

  lemma HandlingDb(s: State, key: nat, t: TaskValue, ms: seq<Middleware>, script: Script, at: Times)
    requires JustLoaded(s, key, t) && s.clock == at.start <= at.back <= at.heard
    ensures var es, (err, when) := Handling(key, t, ms, script, at), Verdict(ms, script, at);
            var p := t.Processing(at.start);
            && Protocol.Legal(s, es)
            && Protocol.Replay(s, es).db ==
               ClosedDb(Protocol.Saved(s.db, p, Protocol.Ttl(p), at.start), Deliveries.Settle(p, err, when),
                        err.Some? && t.maxRetries > 0, when)
  {
    var (err, when) := Verdict(ms, script, at);
    var begin := Protocol.Deliver(key, Deliveries.Begin);
    var p, s1 := t.Processing(at.start), Protocol.Apply(s, begin);
    var calling := Calling(key, ms, script, at);
    match script.outcome {
      case Done(e) => ReturnRun(s1, key, p, e, at.back);
      case Panicked(failure) =>
        PanicRun(s1, key, p, if Panics.Direct(ms) then Some(failure) else None, at.back, at.heard);
    }
    var s2, again := Protocol.Replay(s1, calling), err.Some? && t.maxRetries > 0;
    ClosingRun(s2, key, s2.hands[key].delivery, again);
    Joined(s1, calling, Closing(key, Deliveries.Settle(p, err, when), again));
    EventThen(s, begin, calling + Closing(key, Deliveries.Settle(p, err, when), again));
  }

  lemma ClosedRefines(st: Store<Data>, db: Protocol.Db, t: TaskValue, again: bool, now: Time, ser: Serializer)
    requires ser.Lawful() && Represents(st, db, ser) && Writable(t, ser)
    ensures Represents(if again then Queues.Sent(st, t, ser, now) else Queues.Kept(st, t, ser, now),
                       ClosedDb(db, t, again, now), ser)
  {
    if again {
      PublishedRefines(st, db, t, now, ser);
    } else {
      FilledRefinesSaved(st, db, t, Protocol.Ttl(t), now, ser);
    }
  }

  /** What `Handle` leaves in the queue. */
  lemma HandledStore(w: World, ms: seq<Middleware>, script: Script, at: Times, ser: Serializer)
    requires Panics.Registered(ms) && Panics.Incoming(w, at, ser)
    requires script.outcome.Panicked? ==> Recoverer in ms || script.steps > 0
    ensures var (err, when) := Verdict(ms, script, at);
            var t := Deliveries.Settle(w.task.Processing(at.start), err, when);
            Dumpable(t, ser) ==>
              && RequestHandled(ms, w, script, at, ser).w.task == t
              && RequestHandled(ms, w, script, at, ser).w.store ==
                 if err.Some? && w.task.maxRetries > 0 then Queues.Sent(Panics.Begun(w, at, ser), t, ser, when)
                 else Queues.Kept(Panics.Begun(w, at, ser), t, ser, when)
  {
    match script.outcome
    case Done(_) => Panics.ReturnSettlesOnce(ms, w, script, at, ser);
    case Panicked(_) =>
      if Recoverer in ms {
        Panics.PanicFinish(ms, w, script, at, ser);
      } else {
        Panics.PanicUnrecovered(ms, w, script, at, ser);
        Panics.DirectNeedsRecoverer(ms);
      }
  }

  /**
   `Handle` conforms to the protocol: for every handler that returns or panics, whatever the middlewares, what it leaves
   in the queue is what a run of the protocol's events for its hand leaves. A panic nobody recovers is, as far as the
   worker gets, a run like that of one recovered out of sight.
   */
  lemma HandleIsARun(s: State, key: nat, w: World, ms: seq<Middleware>, script: Script, at: Times, ser: Serializer)
    requires ser.Lawful() && Represents(w.store, s.db, ser)
    requires JustLoaded(s, key, w.task) && s.clock == at.start <= at.back <= at.heard
    requires Panics.Registered(ms) && Panics.Incoming(w, at, ser)
    requires script.outcome.Panicked? ==> Recoverer in ms || script.steps > 0
    requires Writable(w.task.Processing(at.start), ser)
    requires var (err, when) := Verdict(ms, script, at);
             Writable(Deliveries.Settle(w.task.Processing(at.start), err, when), ser)
    ensures var es := Handling(key, w.task, ms, script, at);
            && Protocol.Legal(s, es)
            && Represents(RequestHandled(ms, w, script, at, ser).w.store, Protocol.Replay(s, es).db, ser)
  {
    var (err, when) := Verdict(ms, script, at);
    var p := w.task.Processing(at.start);
    var t, again := Deliveries.Settle(p, err, when), err.Some? && w.task.maxRetries > 0;
    HandlingDb(s, key, w.task, ms, script, at);
    HandledStore(w, ms, script, at, ser);
    FilledRefinesSaved(w.store, s.db, p, Protocol.Ttl(p), at.start, ser);
    ClosedRefines(Panics.Begun(w, at, ser), Protocol.Saved(s.db, p, Protocol.Ttl(p), at.start), t, again, when, ser);
  }

  /** A panic that brings the process down before the worker can act on it: the run breaks off at the panic. */
  lemma CrashIsARun(s: State, key: nat, w: World, ms: seq<Middleware>, script: Script, at: Times, ser: Serializer)
    requires ser.Lawful() && Represents(w.store, s.db, ser)
    requires JustLoaded(s, key, w.task) && s.clock == at.start <= at.back
    requires Panics.Registered(ms) && Panics.Incoming(w, at, ser) && Writable(w.task.Processing(at.start), ser)
    requires script.outcome.Panicked? && Recoverer !in ms && script.steps == 0
    ensures var es := [Protocol.Deliver(key, Deliveries.Begin), Protocol.Advance(at.back),
                       Protocol.Deliver(key, Deliveries.Panic(None))];
            && Protocol.Legal(s, es)
            && Represents(RequestHandled(ms, w, script, at, ser).w.store, Protocol.Replay(s, es).db, ser)
  {
    var p := w.task.Processing(at.start);
    Panics.PanicUnrecovered(ms, w, script, at, ser);
    FilledRefinesSaved(w.store, s.db, p, Protocol.Ttl(p), at.start, ser);
    ThreeEvents(s, Protocol.Deliver(key, Deliveries.Begin), Protocol.Advance(at.back),
                Protocol.Deliver(key, Deliveries.Panic(None)));
  }

  /**
   `Handle` of a task loaded as canceled does nothing: it leaves the queue the load leaves, and the protocol's hand is
   empty with the id settled.
   */
  lemma CanceledIsARun(s: State, key: nat, w: World, ms: seq<Middleware>, script: Script, at: Times, ser: Serializer)
    requires Represents(w.store, s.db, ser) && w.task.maxRetries >= 0 && w.own.None? && w.task.status == CANCELED
    requires key in s.hands && s.hands[key] == Protocol.Popped(w.task.id)
    requires Protocol.Loadable(s.db, w.task.id, s.clock) == Some(w.task)
    ensures Protocol.Legal(s, [Protocol.Load(key)])
    ensures var s', end := Protocol.Replay(s, [Protocol.Load(key)]), RequestHandled(ms, w, script, at, ser);
            && s' == s.(hands := s.hands - {key}, settled := s.settled + {w.task.id})
            && end == Finish(w, Done(None), []) && Represents(end.w.store, s'.db, ser)
  {
    OneEvent(s, Protocol.Load(key));
  }

  // Publishing with options

  /**
   `Publish` with options, as a run: with a countdown that has not passed the id is delayed to the second it ends in,
   with a negative one it goes to the left of the list, and without one to the right.
   */
  lemma PublishOptionsIsARun(s: State, key: nat, t: TaskValue, name: string, id: Id, payload: Json,
                             opts: Queues.Options, st: Store<Data>, ser: Serializer)
    requires t == Queues.NewTask(name, id, payload, opts, s.clock)
    requires ser.Lawful() && Represents(st, s.db, ser) && Writable(t, ser)
    requires key !in s.hands && id !in s.published
    requires opts.countdown.Some? ==> s.clock + opts.countdown.value != ZERO_TIME
    ensures var es := [Protocol.Submit(key, t), Protocol.File(key), Protocol.Enqueue(key)];
            && Protocol.Legal(s, es) && Represents(Queues.Sent(st, t, ser, s.clock), Protocol.Replay(s, es).db, ser)
            && WherePublished(s.db, Protocol.Replay(s, es).db, id, opts.countdown, s.clock)
  {
    OptionsEnabled(s, key, t, name, id, payload, opts);
    PublishIsARun(s, key, t, st, ser);
    OptionsRun(s, key, t, name, id, payload, opts);
  }

  lemma OptionsEnabled(s: State, key: nat, t: TaskValue, name: string, id: Id, payload: Json, opts: Queues.Options)
    requires t == Queues.NewTask(name, id, payload, opts, s.clock) && key !in s.hands && id !in s.published
    ensures Protocol.Enabled(s, Protocol.Submit(key, t)) && t.id == id
  {
  }

  lemma OptionsRun(s: State, key: nat, t: TaskValue, name: string, id: Id, payload: Json, opts: Queues.Options)
    requires t == Queues.NewTask(name, id, payload, opts, s.clock) && Protocol.Enabled(s, Protocol.Submit(key, t))
    requires opts.countdown.Some? ==> s.clock + opts.countdown.value != ZERO_TIME
    ensures var es := [Protocol.Submit(key, t), Protocol.File(key), Protocol.Enqueue(key)];
            Protocol.Legal(s, es) && WherePublished(s.db, Protocol.Replay(s, es).db, id, opts.countdown, s.clock)
  {
    PublishedWhere(s, key, t);
    OptionsWhere(name, id, payload, opts, s.clock);
  }

  predicate WherePublished(db: Protocol.Db, db': Protocol.Db, id: Id, countdown: Option<Duration>, now: Time) {
    match countdown
    case None => db'.list == db.list + [id] && db'.delayed == db.delayed
    case Some(c) =>
      if c < 0 then db'.list == [id] + db.list && db'.delayed == db.delayed
      else db'.list == db.list && db'.delayed == db.delayed[id := Second(now + c)]
  }

  lemma PublishedWhere(s: State, key: nat, t: TaskValue)
    requires Protocol.Enabled(s, Protocol.Submit(key, t))
    ensures var es := [Protocol.Submit(key, t), Protocol.File(key), Protocol.Enqueue(key)];
            && Protocol.Legal(s, es)
            && var db, db' := s.db, Protocol.Replay(s, es).db;
               match Destination(t.eta, s.clock)
               case Back => db'.list == db.list + [t.id] && db'.delayed == db.delayed
               case Front => db'.list == [t.id] + db.list && db'.delayed == db.delayed
               case At(score) => db'.list == db.list && db'.delayed == db.delayed[t.id := score]
  {
    PublishingDb(s, key, t);
    ThreeEvents(s, Protocol.Submit(key, t), Protocol.File(key), Protocol.Enqueue(key));
  }

  lemma OptionsWhere(name: string, id: Id, payload: Json, opts: Queues.Options, now: Time)
    requires opts.countdown.Some? ==> now + opts.countdown.value != ZERO_TIME
    ensures Destination(Queues.NewTask(name, id, payload, opts, now).eta, now) ==
            match opts.countdown
            case None => Back
            case Some(c) => if c < 0 then Front else At(Second(now + c))
  {
  }

  /**
   A countdown is waited for: a task published with one is never listed, and its handler never started, before the
   second its countdown ends in.
   */
  lemma CountdownIsWaitedFor(s: State, es: seq<Event>, name: string, id: Id, payload: Json, opts: Queues.Options,
                             published: Time)
    requires Protocol.Initial(s) && Protocol.Legal(s, es) && Protocol.AllOrderly(s, es) && opts.countdown.Some?
    requires PublishedAs(es, Queues.NewTask(name, id, payload, opts, published))
    ensures id in Protocol.Replay(s, es).db.list || Draining.Starts(s, es, id) > 0 ==>
              Second(published + opts.countdown.value) <= Second(Protocol.Replay(s, es).clock)
  {
    PublishedAsFor(es, Queues.NewTask(name, id, payload, opts, published));
    Countdown.WaitsForItsEta(s, es, id);
  }

  /** The first publication of the task's id in the run is of this task. */
  predicate PublishedAs(es: seq<Event>, t: TaskValue) {
    es != [] && if es[0].Submit? && es[0].task.id == t.id then es[0].task == t else PublishedAs(es[1..], t)
  }

  lemma {:induction false} PublishedAsFor(es: seq<Event>, t: TaskValue)
    requires PublishedAs(es, t)
    ensures Countdown.PublishedFor(es, t.id) == Some(t.eta)
  {
    if !(es[0].Submit? && es[0].task.id == t.id) {
      PublishedAsFor(es[1..], t);
    }
  }
}
