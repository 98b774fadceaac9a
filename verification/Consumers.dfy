/**
 A consumer handling one request (consumer.go, middleware/recoverer.go) whose handler ends before the timeout: the
 middleware chain over aliased requests, `handleError` on the shared task, and what both leave in the broker.
 */
module Consumers {
  import opened Clock
  import opened Wrappers
  import opened Tasks
  import opened Codec
  import opened Redis
  import opened Handlers
  import opened Queues
  import Deliveries

  /** What `handleError` returns when the task cannot be written. */
  const UNWRITABLE: Failure := Fault("unable to handle error")

  datatype Handled = Handled(task: TaskValue, store: Store<Data>, err: Option<Failure>)

  /** `handleError`: nothing unless the task is still processing; otherwise one settlement, saved or republished. */
  function ErrorHandled(t: TaskValue, st: Store<Data>, err: Option<Failure>, now: Time, ser: Serializer): Handled
    requires t.maxRetries >= 0
  {
    if t.status != PROCESSING then Handled(t, st, None)
    else
      var t' := Deliveries.Settle(t, err, now);
      if !Dumpable(t', ser) then Handled(t', st, Some(UNWRITABLE))
      else if err.None? || t.maxRetries == 0 then Handled(t', Kept(st, t', ser, now), None)
      else Handled(t', Sent(st, t', ser, now), None)
  }

  /** What `handleError` does to a task, by its fields. */
  ghost predicate SettledBy(t: TaskValue, t': TaskValue, err: Option<Failure>, now: Time)
    requires t.maxRetries >= 0
  {
    var again := err.Some? && t.maxRetries > 0;
    && t'.status == (if err.None? then SUCCEEDED else if err.value.TimedOut? then CANCELED else FAILED)
    && t'.processedAt == now
    && t'.error == (if err.Some? && err.value.Fault? then Raised(err.value.message) else t.error)
    && t'.maxRetries == (if again then t.maxRetries - 1 else t.maxRetries)
    && t'.eta == (if !again || t.maxRetries > |t.intervals| then t.eta
                  else now + t.intervals[|t.intervals| - t.maxRetries])
    && t'.id == t.id && t'.name == t.name && t'.publishedAt == t.publishedAt && t'.startedAt == t.startedAt
    && t'.oldStatus == t.oldStatus && t'.payload == t.payload && t'.result == t.result
    && t'.ttl == t.ttl && t'.timeout == t.timeout && t'.intervals == t.intervals
  }

  /** Where a settled task's id goes: nowhere, or where the retry's ETA sends it. */
  ghost predicate RequeuedBy(st: Store<Data>, st': Store<Data>, t: TaskValue, again: bool, now: Time) {
    if !again then st'.list == st.list && st'.delayed == st.delayed
    else if t.eta == ZERO_TIME then st'.list == st.list + [t.id] && st'.delayed == st.delayed
    else if t.eta < now then st'.list == [t.id] + st.list && st'.delayed == st.delayed
    else st'.list == st.list && st'.delayed == st.delayed[t.id := Second(t.eta)]
  }

  lemma HandledFields(t: TaskValue, st: Store<Data>, err: Option<Failure>, now: Time, ser: Serializer)
    requires t.maxRetries >= 0
    ensures var done := ErrorHandled(t, st, err, now, ser);
            if t.status != PROCESSING then done == Handled(t, st, None)
            else
              && SettledBy(t, done.task, err, now)
              && (done.err.None? <==> Dumpable(done.task, ser))
              && (if done.err.Some? then done.store == st
                  else RequeuedBy(st, done.store, done.task, err.Some? && t.maxRetries > 0, now))
  {
    if t.status == PROCESSING {
      Deliveries.SettledFields(t, err, now);
    }
  }

  /**
   The request `handleTask` holds, the one the current handler is given (`None` when it is the held one itself), the
   task they share, and the queue.
   */
  datatype World = World(held: Context, own: Option<Context>, task: TaskValue, store: Store<Data>) {
    function Current(): Context {
      if own.Some? then own.value else held
    }

    function Put(ctx: Context): World {
      if own.Some? then this.(own := Some(ctx)) else this.(held := ctx)
    }
  }

  /** What serving a request does to the world. */
  function Effect(h: Handler, w: World, script: Script, now: Time, ser: Serializer): (r: (World, Outcome))
    requires w.task.maxRetries >= 0
    ensures r.0.task.maxRetries >= 0 && r.0.task.name == w.task.name && (r.0.own.Some? <==> w.own.Some?)
  {
    match h
    case Base =>
      var w1 := if w.own.Some? then w.(held := w.own.value) else w;
      (w1.Put(w1.Current().With(script.more, map[])), script.outcome)
    case Wrap(Recoverer, inner) =>
      var (w1, out) := Effect(inner, w, script, now, ser);
      if out.Panicked? then (w1.Put(w1.Current().WithError(out.failure)), Done(None)) else (w1, out)
    case Wrap(Derive(more, added), inner) =>
      var (w1, out) := Effect(inner, w.(own := Some(w.Current().With(more, added))), script, now, ser);
      (w1.(own := w.own), out)
    case Wrap(Stamp(more, added), inner) =>
      Effect(inner, w.Put(w.Current().With(more, added)), script, now, ser)
    case Wrap(HandleRequest, inner) =>
      var (w1, out) := Effect(inner, w, script, now, ser);
      if out.Panicked? then (w1, out)
      else
        var done := ErrorHandled(w1.task, w1.store, out.err, now, ser);
        (w1.(task := done.task, store := done.store), Done(done.err))
  }

  /**
   `handleTask` without a timeout: the chain's error, or else the one left in the held request's context. A panic nobody
   recovers leaves the goroutine only after its deferred send, so the worker has been sent a nil error by then.
   */
  function TaskHandled(middlewares: seq<Middleware>, w: World, script: Script, now: Time, ser: Serializer)
    : (r: (World, Outcome))
    requires w.task.maxRetries >= 0 && w.own.None?
    ensures r.0.task.maxRetries >= 0 && r.0.own.None?
  {
    var (w1, out) := Effect(Nest(middlewares + [HandleRequest], Base), w, script, now, ser);
    (w1, if out == Done(None) then Done(w1.held.error) else out)
  }

  /** How `Handle` ends: the world, its error or the panic that takes the process down, and the functions it ran. */
  datatype Finish = Finish(w: World, out: Outcome, ran: seq<nat>)

  /** The clock readings of one `Handle`: at the start, at the handler's return, and when the worker hears of it. */
  datatype Times = Times(start: Time, back: Time, heard: Time)

  /** The after-request functions that are run: all, unless the process goes down first. */
  function Ran(funcs: seq<nat>, out: Outcome, script: Script): seq<nat>
    requires out.Panicked? ==> script.steps > 0
  {
    if out.Panicked? && script.steps - 1 < |funcs| then funcs[..script.steps - 1] else funcs
  }

  function RequestHandled(middlewares: seq<Middleware>, w: World, script: Script, at: Times, ser: Serializer): Finish
    requires w.task.maxRetries >= 0 && w.own.None?
  {
    if w.task.status == CANCELED then Finish(w, Done(None), [])
    else
      var t := w.task.Processing(at.start);
      if !Dumpable(t, ser) then Finish(w.(task := t), Done(Some(UNWRITABLE)), [])
      else
        var (w1, out) := TaskHandled(middlewares, w.(task := t, store := Kept(w.store, t, ser, at.start)), script,
                                     at.back, ser);
        if out.Panicked? && script.steps == 0 then Finish(w1, out, [])
        else
          var done := ErrorHandled(w1.task, w1.store, if out.Done? then out.err else None, at.heard, ser);
          Finish(w1.(task := done.task, store := done.store), if out.Done? then Done(done.err) else out,
                 if done.err.Some? then [] else Ran(w1.held.after, out, script))
  }

  class Consumer {
    const queue: Queue
    const middlewares: seq<Middleware>

    constructor (queue: Queue, middlewares: seq<Middleware>)
      ensures this.queue == queue && this.middlewares == middlewares
    {
      this.queue, this.middlewares := queue, middlewares;
    }

    ghost function TheWorld(held: Request, r: Request): World
      reads held, r, held.task, queue.broker, queue.broker.server
    {
      World(held.ctx, if r == held then None else Some(r.ctx), held.task.Value(), queue.Store())
    }

    /** `handleError`. */
    method HandleError(task: Task, err: Option<Failure>, now: Time) returns (r: Option<Failure>)
      requires task.name == queue.name && task.maxRetries >= 0
      modifies task, queue.broker.server
      ensures Handled(task.Value(), queue.Store(), r) ==
              ErrorHandled(old(task.Value()), old(queue.Store()), err, now, queue.ser)
      ensures old(task.status) != PROCESSING ==>
                task.Value() == old(task.Value()) && queue.Store() == old(queue.Store()) && r.None?
      ensures old(task.status) == PROCESSING ==>
                && SettledBy(old(task.Value()), task.Value(), err, now)
                && (r.None? <==> Dumpable(task.Value(), queue.ser))
                && (if r.Some? then queue.Store() == old(queue.Store())
                    else RequeuedBy(old(queue.Store()), queue.Store(), task.Value(),
                                    err.Some? && old(task.maxRetries) > 0, now))
    {
      HandledFields(task.Value(), queue.Store(), err, now, queue.ser);
      if task.status != PROCESSING {
        return None;
      }
      var ok;
      if err.None? {
        task.MarkAsSucceeded(now);
        ok := queue.Save(task, now);
        return if ok then None else Some(UNWRITABLE);
      }
      Mark(task, err.value, now);
      if task.maxRetries == 0 {
        ok := queue.Save(task, now);
        return if ok then None else Some(UNWRITABLE);
      }
      SpendRetry(task, now);
      ok := queue.PublishTask(task, now);
      r := if ok then None else Some(UNWRITABLE);
    }

    /** `handleError`'s mark: canceled for a timeout, failed for anything else. */
    method Mark(task: Task, failure: Failure, now: Time)
      modifies task
      ensures task.Value() == Deliveries.Marked(old(task.Value()), failure, now)
    {
      if failure.TimedOut? {
        task.MarkAsCanceled(now);
      } else {
        task.MarkAsFailed(now, Some(failure.message));
      }
    }

    /** `handleError`'s retry: one less, and the ETA that follows from what is left. */
    method SpendRetry(task: Task, now: Time)
      requires task.maxRetries > 0
      modifies task
      ensures task.Value() == old(task.Value()).Retried(now)
    {
      task.maxRetries := task.maxRetries - 1;
      ghost var spent := task.Value();
      var next := task.RetryETA(now);
      task.eta := next;
      assert task.Value() == spent.(eta := next);
    }

    /**
     The handlers of a chain, one call each. `Recoverer` overwrites the request it was given, so its callers see the
     error exactly if they hold that very request; its own result is nil after a panic.
     */
    method Serve(h: Handler, held: Request, r: Request, script: Script, now: Time) returns (out: Outcome)
      requires held.task == r.task && held.task.name == queue.name && held.task.maxRetries >= 0
      modifies held, r, held.task, queue.broker.server
      ensures (TheWorld(held, r), out) == Effect(h, old(TheWorld(held, r)), script, now, queue.ser)
      decreases h
    {
      match h
      case Base =>
        held.Assign(r);
        r.ctx := r.ctx.With(script.more, map[]);
        out := script.outcome;
      case Wrap(Recoverer, inner) =>
        out := Serve(inner, held, r, script, now);
        if out.Panicked? {
          var recovered := r.WithContext(r.ctx.WithError(out.failure));
          r.Assign(recovered);
          out := Done(None);
        }
      case Wrap(Derive(more, added), inner) =>
        var derived := r.WithContext(r.ctx.With(more, added));
        out := Serve(inner, held, derived, script, now);
      case Wrap(Stamp(more, added), inner) =>
        var stamped := r.WithContext(r.ctx.With(more, added));
        r.Assign(stamped);
        out := Serve(inner, held, r, script, now);
      case Wrap(HandleRequest, inner) =>
        out := Serve(inner, held, r, script, now);
        if out.Done? {
          var err := HandleError(r.task, out.err, now);
          out := Done(err);
        }
    }

    /** `handleTask` for a handler that ends before the timeout. */
    method HandleTask(r: Request, script: Script, now: Time) returns (out: Outcome)
      requires r.task.name == queue.name && r.task.maxRetries >= 0
      modifies r, r.task, queue.broker.server
      ensures (TheWorld(r, r), out) == TaskHandled(middlewares, old(TheWorld(r, r)), script, now, queue.ser)
    {
      var chain := Chain(middlewares + [HandleRequest], Base);
      out := Serve(chain, r, r, script, now);
      if out == Done(None) {
        out := Done(r.ctx.error);
      }
    }

    /** `Handle`, the hooks of the queue apart. */
    method Handle(r: Request, script: Script, at: Times) returns (out: Outcome, ran: seq<nat>)
      requires r.task.name == queue.name && r.task.maxRetries >= 0
      modifies r, r.task, queue.broker.server
      ensures Finish(TheWorld(r, r), out, ran) ==
              RequestHandled(middlewares, old(TheWorld(r, r)), script, at, queue.ser)
      ensures old(r.task.status) == CANCELED ==>
                && r.task.Value() == old(r.task.Value()) && r.ctx == old(r.ctx)
                && queue.broker.server.keys == old(queue.broker.server.keys) && out == Done(None) && ran == []
      ensures old(r.task.status) != CANCELED && !Dumpable(old(r.task.Value()), queue.ser) ==>
                && r.task.Value() == old(r.task.Value()).(startedAt := at.start, status := PROCESSING)
                && queue.Store() == old(queue.Store()) && out.Done? && out.err.Some? && ran == []
    {
      out, ran := Done(None), [];
      if r.task.status == CANCELED {
        return;
      }
      r.task.MarkAsProcessing(at.start);
      var ok := queue.Save(r.task, at.start);
      if !ok {
        return Done(Some(UNWRITABLE)), [];
      }
      out := HandleTask(r, script, at.back);
      if out.Panicked? && script.steps == 0 {
        return;
      }
      var err := HandleError(r.task, if out.Done? then out.err else None, at.heard);
      if out.Done? {
        out := Done(err);
      }
      if err.Some? {
        return;
      }
      ran := After(r.ctx.after, out.Panicked?, script.steps);
    }

    /** The after-request functions, in order; when the process is going down, as far as the worker gets. */
    method After(funcs: seq<nat>, dying: bool, steps: nat) returns (ran: seq<nat>)
      requires dying ==> steps > 0
      ensures ran <= funcs && |ran| == if dying && steps - 1 < |funcs| then steps - 1 else |funcs|
    {
      ran := [];
      for i := 0 to |funcs|
        invariant ran == funcs[..i]
        invariant dying ==> i < steps
      {
        if dying && i + 1 == steps {
          return;
        }
        ran := ran + [funcs[i]];
      }
    }
  }
}
