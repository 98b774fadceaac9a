/** A queue (queue.go): tasks on their way to and from the broker. */
module Queues {
  import opened Clock
  import opened Wrappers
  import opened Tasks
  import opened Codec
  import opened Redis
  import opened Broker
  import Protocol

  const DEFAULT_MAX_RETRIES: int := 3
  const DEFAULT_TTL: Duration := 180_000_000_000

  /** What `NewTask` takes from the options. */
  datatype Options = Options(
    maxRetries: int,
    ttl: Duration,
    timeout: Duration,
    intervals: seq<Duration>,
    countdown: Option<Duration>)

  /** The task `NewTask` makes; the id is a fresh one. */
  function NewTask(name: string, id: Id, payload: Json, opts: Options, now: Time): TaskValue {
    TaskValue(id, name, now, ZERO_TIME, ZERO_TIME, WAITING, WAITING, opts.maxRetries, payload, Null, Stored(Null),
              opts.ttl, opts.timeout, if opts.countdown.Some? then now + opts.countdown.value else ZERO_TIME,
              opts.intervals)
  }

  /** The payloads that can be read, in order. */
  function Readable(results: seq<Data>, ser: Serializer): seq<TaskValue> {
    if results == [] then []
    else
      var init, last := Readable(results[..|results| - 1], ser), Decode(results[|results| - 1], ser);
      if last.Ok? then init + [last.value] else init
  }

  /** Each payload is read by itself, in order, and passed over if it cannot be read. */
  lemma {:induction false} ReadableJoins(a: seq<Data>, b: seq<Data>, ser: Serializer)
    ensures Readable(a + b, ser) == Readable(a, ser) + Readable(b, ser)
    ensures forall x :: Readable([x], ser) == match Decode(x, ser) case Ok(t) => [t] case Err(_) => []
    decreases |b|
  {
    forall x ensures Readable([x], ser) == match Decode(x, ser) case Ok(t) => [t] case Err(_) => [] {
      assert [x][..0] == [];
      assert Readable([], ser) == [];
    }
    if b == [] {
      assert a + b == a;
    } else {
      ReadableJoins(a, b[..|b| - 1], ser);
      assert (a + b)[..|a + b| - 1] == a + b[..|b| - 1];
    }
  }

  /** The store after `Save`. */
  function Kept(st: Store<Data>, t: TaskValue, ser: Serializer, now: Time): Store<Data>
    requires Dumpable(t, ser)
  {
    Filled(st, t.id, Encode(t, ser), Protocol.Ttl(t), now)
  }

  /** The store after `PublishTask`. */
  function Sent(st: Store<Data>, t: TaskValue, ser: Serializer, now: Time): Store<Data>
    requires Dumpable(t, ser)
  {
    Published(st, t.id, Encode(t, ser), t.eta, now)
  }

  class Queue {
    const name: string
    const broker: RedisBroker
    const ser: Serializer

    constructor (broker: RedisBroker, name: string, ser: Serializer)
      ensures this.broker == broker && this.name == name && this.ser == ser
    {
      this.broker, this.name, this.ser := broker, name, ser;
    }

    ghost function Store(): Store<Data>
      reads broker, broker.server
    {
      broker.Queue(name)
    }

    /**
     `Save`: with the task's TTL once it is finished, under the key of the queue the task names. Nothing is written for
     a task the serializer cannot write.
     */
    method Save(task: Task, now: Time) returns (ok: bool)
      modifies broker.server
      ensures ok <==> Dumpable(task.Value(), ser)
      ensures var st := old(broker.Queue(task.name));
              broker.Queue(task.name) == if ok then Kept(st, task.Value(), ser, now) else st
      ensures var finished := task.status == SUCCEEDED || task.oldStatus == SUCCEEDED
                              || ((task.status == FAILED || task.oldStatus == FAILED) && task.maxRetries == 0);
              ok ==>
                && task.id in broker.Queue(task.name).hashes
                && broker.Queue(task.name).hashes[task.id].expires ==
                   if finished && WholeSeconds(task.ttl) != 0 then Some(now + WholeSeconds(task.ttl) * SECOND)
                   else KeptExpiry(old(broker.Queue(task.name)), task.id, now)
      ensures SameElsewhere(old(broker.server.keys), broker.server.keys, KeysOf(broker.prefix, task.name))
    {
      var data := Serialize(task.Value(), ser);
      if data.None? {
        return false;
      }
      var finished := task.IsFinished();
      if finished {
        broker.Set(TaskKey(task.name, task.id), data.value, task.ttl, now, task.name, task.id);
      } else {
        broker.Set(TaskKey(task.name, task.id), data.value, 0, now, task.name, task.id);
      }
      ok := true;
    }

    /** `PublishTask`. */
    method PublishTask(task: Task, now: Time) returns (ok: bool)
      modifies broker.server
      ensures ok <==> Dumpable(task.Value(), ser)
      ensures Store() == if ok then Sent(old(Store()), task.Value(), ser, now) else old(Store())
    {
      var data := Serialize(task.Value(), ser);
      if data.None? {
        return false;
      }
      broker.Publish(name, task.id, data.value, task.eta, now);
      ok := true;
    }

    /** `NewTask` on a queue: the options' retries, times and intervals, and an ETA if a countdown is given. */
    method MakeTask(payload: Json, id: Id, opts: Options, now: Time) returns (task: Task)
      ensures fresh(task) && task.Value() == NewTask(name, id, payload, opts, now)
      ensures task.id == id && task.name == name && task.payload == payload && task.publishedAt == now
      ensures task.status == WAITING && task.oldStatus == WAITING && task.result == Null && task.error == Stored(Null)
      ensures task.startedAt == ZERO_TIME && task.processedAt == ZERO_TIME
      ensures task.maxRetries == opts.maxRetries && task.ttl == opts.ttl && task.timeout == opts.timeout
      ensures task.intervals == opts.intervals
      ensures opts.countdown.None? ==> task.eta == ZERO_TIME
      ensures opts.countdown.Some? ==> task.eta == now + opts.countdown.value
    {
      task := new Task.New(name, id, payload, DEFAULT_MAX_RETRIES, DEFAULT_TTL, now);
      task.maxRetries, task.ttl := opts.maxRetries, opts.ttl;
      task.timeout, task.intervals := opts.timeout, opts.intervals;
      if opts.countdown.Some? {
        task.eta := now + opts.countdown.value;
      }
    }

    /** `Publish`: a new task, published as it is made. */
    method Publish(payload: Json, id: Id, opts: Options, now: Time) returns (task: Task, ok: bool)
      modifies broker.server
      ensures fresh(task) && task.Value() == NewTask(name, id, payload, opts, now)
      ensures ok <==> Dumpable(task.Value(), ser)
      ensures Store() == if ok then Sent(old(Store()), task.Value(), ser, now) else old(Store())
      ensures ok && opts.countdown.None? ==>
                Store().list == old(Store()).list + [id] && Store().delayed == old(Store()).delayed
      ensures ok && opts.countdown.Some? && now + opts.countdown.value != ZERO_TIME ==>
                if opts.countdown.value < 0
                then Store().list == [id] + old(Store()).list && Store().delayed == old(Store()).delayed
                else Store().list == old(Store()).list
                     && Store().delayed == old(Store()).delayed[id := Second(now + opts.countdown.value)]
    {
      task := MakeTask(payload, id, opts, now);
      ok := PublishTask(task, now);
    }

    /** `Get`: what the hash loads as; a missing hash fails on its first key. */
    method Get(taskID: Id, now: Time) returns (r: Result<Task, Field>)
      ensures r.Err? ==> Decode(Held(Store(), taskID, now), ser) == Err(r.error)
      ensures r.Ok? ==> fresh(r.value) && Decode(Held(Store(), taskID, now), ser) == Ok(r.value.Value())
    {
      var results := broker.Get(TaskKey(name, taskID), now, name, taskID);
      r := TaskFromPayload(results, ser);
    }

    /** `Cancel`, with nothing running between its load and its save. */
    method Cancel(taskID: Id, now: Time) returns (r: Result<Task, Field>, ok: bool)
      modifies broker.server
      ensures var read := Decode(Held(old(Store()), taskID, now), ser);
              match read
              case Err(f) => r == Err(f) && !ok && broker.server.keys == old(broker.server.keys)
              case Ok(t) =>
                && r.Ok? && fresh(r.value) && r.value.Value() == t.Canceled(now)
                && (ok <==> Dumpable(t.Canceled(now), ser))
                && var st := old(broker.Queue(t.name));
                   broker.Queue(t.name) == if ok then Kept(st, t.Canceled(now), ser, now) else st
    {
      r := Get(taskID, now);
      if r.Err? {
        return r, false;
      }
      r.value.MarkAsCanceled(now);
      ok := Save(r.value, now);
    }

    /** `payloadsToTasks`: payloads that cannot be read are passed over. */
    method PayloadsToTasks(results: seq<Data>) returns (tasks: seq<Task>)
      ensures |tasks| == |Readable(results, ser)|
      ensures forall i :: 0 <= i < |tasks| ==> fresh(tasks[i]) && tasks[i].Value() == Readable(results, ser)[i]
    {
      tasks := [];
      for i := 0 to |results|
        invariant |tasks| == |Readable(results[..i], ser)|
        invariant forall j :: 0 <= j < |tasks| ==>
          fresh(tasks[j]) && tasks[j].Value() == Readable(results[..i], ser)[j]
      {
        assert results[..i + 1][..i] == results[..i];
        var task := TaskFromPayload(results[i], ser);
        if task.Ok? {
          tasks := tasks + [task.value];
        }
      }
      assert results[..|results|] == results;
    }

    /** `Consume`: the tasks of what the broker popped. */
    method Consume(now: Time) returns (tasks: seq<Task>)
      requires broker.Valid()
      modifies broker, broker.server
      ensures broker.Valid()
      ensures var st := old(Store());
              if st.list == [] then tasks == [] && Store() == st
              else
                && Store() == Popped(st)
                && (exists results ::
                      && PoppedPayloads(st, broker.prefix, name, now, results)
                      && |tasks| == |Readable(results, ser)|
                      && forall i :: 0 <= i < |tasks| ==> tasks[i].Value() == Readable(results, ser)[i])
                && var id := st.list[|st.list| - 1];
                   broker.prefix == "" && id != name ==>
                     var read := Decode(Held(st, id, now), ser);
                     if Held(st, id, now) != map[] && read.Ok?
                     then |tasks| == 1 && tasks[0].Value() == read.value else tasks == []
    {
      var results := broker.Consume(name, now);
      tasks := PayloadsToTasks(results);
    }
  }
}
