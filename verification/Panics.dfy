/** What becomes of a panicking handler, for every order of middlewares. */
module Panics {
  import opened Clock
  import opened Wrappers
  import opened Tasks
  import opened Codec
  import opened Redis
  import opened Handlers
  import opened Queues
  import opened Consumers
  import Deliveries

  /** Middlewares as an application registers them; the consumer adds `handleRequest` itself. */
  predicate Registered(ms: seq<Middleware>) {
    HandleRequest !in ms
  }

  predicate Derives(ms: seq<Middleware>) {
    exists i :: 0 <= i < |ms| && ms[i].Derive?
  }

  /** The innermost `Recoverer` is reached before any middleware hands on a request of its own. */
  predicate Direct(ms: seq<Middleware>) {
    ms != [] && if Recoverer in ms[1..] then !ms[0].Derive? && Direct(ms[1..]) else ms[0] == Recoverer
  }

  lemma {:induction false} DirectNeedsRecoverer(ms: seq<Middleware>)
    ensures Direct(ms) ==> Recoverer in ms
  {
    if ms != [] {
      DirectNeedsRecoverer(ms[1..]);
    }
  }

  /** `Direct`, said of positions. */
  lemma {:induction false} DirectAt(ms: seq<Middleware>)
    ensures Direct(ms) <==>
            exists i :: 0 <= i < |ms| && ms[i] == Recoverer && Recoverer !in ms[i + 1..] && !Derives(ms[..i])
  {
    if ms != [] {
      var rest := ms[1..];
      DirectAt(rest);
      forall i | 0 <= i < |rest|
        ensures rest[i] == ms[i + 1] && rest[i + 1..] == ms[i + 2..]
        ensures Derives(ms[..i + 1]) <==> ms[0].Derive? || Derives(rest[..i])
      {
        ShiftDerives(ms, i);
      }
      if Recoverer in rest {
        if Direct(ms) {
          var i :| 0 <= i < |rest| && rest[i] == Recoverer && Recoverer !in rest[i + 1..] && !Derives(rest[..i]);
          assert ms[i + 1] == Recoverer && Recoverer !in ms[i + 2..] && !Derives(ms[..i + 1]);
        }
        if i :| 0 <= i < |ms| && ms[i] == Recoverer && Recoverer !in ms[i + 1..] && !Derives(ms[..i]) {
          assert ms[1..] == rest;
          assert i != 0;
          assert rest[i - 1] == Recoverer && Recoverer !in rest[i..] && !Derives(rest[..i - 1]);
          assert !ms[..i][0].Derive?;
        }
      } else {
        forall i | 1 <= i < |ms| ensures ms[i] != Recoverer {
          assert ms[i] == rest[i - 1];
        }
        assert ms[0] == Recoverer ==> ms[0 + 1..] == rest && !Derives(ms[..0]);
      }
    }
  }

  lemma ShiftDerives(ms: seq<Middleware>, i: nat)
    requires i < |ms| - 1
    ensures Derives(ms[..i + 1]) <==> ms[0].Derive? || Derives(ms[1..][..i])
  {
    var a, b := ms[..i + 1], ms[1..][..i];
    assert a[0] == ms[0] && forall j :: 0 <= j < i ==> a[j + 1] == b[j];
    if Derives(b) {
      var j :| 0 <= j < |b| && b[j].Derive?;
      assert a[j + 1].Derive?;
    }
    if Derives(a) {
      var j :| 0 <= j < |a| && a[j].Derive?;
      assert j > 0 ==> b[j - 1].Derive?;
    }
    assert ms[0].Derive? ==> a[0].Derive?;
  }

  /** The functions the middlewares register, outermost first. */
  function Added(ms: seq<Middleware>): seq<nat> {
    if ms == [] then []
    else (if ms[0].Derive? || ms[0].Stamp? then ms[0].more else []) + Added(ms[1..])
  }

  /** The context entries the middlewares add; an inner one wins. */
  function Entries(ms: seq<Middleware>): map<string, string> {
    if ms == [] then map[]
    else (if ms[0].Derive? || ms[0].Stamp? then ms[0].added else map[]) + Entries(ms[1..])
  }

  /** The functions on the held request at the end: the handler's own are lost if it was given another request. */
  function AfterFuncs(ms: seq<Middleware>, w: World, script: Script): seq<nat> {
    w.Current().after + Added(ms) + if w.own.None? && !Derives(ms) then script.more else []
  }

  lemma DerivesRest(ms: seq<Middleware>)
    requires ms != []
    ensures Derives(ms) <==> ms[0].Derive? || Derives(ms[1..])
  {
    if i :| 0 <= i < |ms| && ms[i].Derive? && i > 0 {
      assert ms[1..][i - 1].Derive?;
    }
  }

  /** The world the wrapped handler is called in. */
  function Given(m: Middleware, w: World): World {
    match m
    case Derive(more, added) => w.(own := Some(w.Current().With(more, added)))
    case Stamp(more, added) => w.Put(w.Current().With(more, added))
    case _ => w
  }

  /** A registered middleware hands on what a handler that returns leaves. */
  lemma ReturnsThrough(m: Middleware, h: Handler, w: World, script: Script, now: Time, ser: Serializer)
    requires m != HandleRequest && w.task.maxRetries >= 0 && Effect(h, Given(m, w), script, now, ser).1.Done?
    ensures var (w1, out) := Effect(h, Given(m, w), script, now, ser);
            Effect(Wrap(m, h), w, script, now, ser) == (if m.Derive? then w1.(own := w.own) else w1, out)
  {
  }

  /** `handleRequest` around the handler itself. */
  lemma ReturnsToHandleRequest(w: World, script: Script, now: Time, ser: Serializer)
    requires script.outcome.Done? && w.task.maxRetries >= 0
    ensures var (w', out) := Effect(Wrap(HandleRequest, Base), w, script, now, ser);
            var done := ErrorHandled(w.task, w.store, script.outcome.err, now, ser);
            && out == Done(done.err) && w'.task == done.task && w'.store == done.store
            && w'.held.error == w.Current().error && w'.held.after == AfterFuncs([], w, script)
            && w'.held.entries == w.Current().entries
  {
  }

  lemma AfterFuncsThrough(ms: seq<Middleware>, w: World, script: Script)
    requires ms != []
    ensures AfterFuncs(ms, w, script) == AfterFuncs(ms[1..], Given(ms[0], w), script)
    ensures Given(ms[0], w).Current().error == w.Current().error
    ensures Given(ms[0], w).task == w.task && Given(ms[0], w).store == w.store
    ensures Given(ms[0], w).own.None? <==> w.own.None? && !ms[0].Derive?
  {
    DerivesRest(ms);
  }

  lemma EntriesThrough(ms: seq<Middleware>, w: World)
    requires ms != []
    ensures w.Current().entries + Entries(ms) == Given(ms[0], w).Current().entries + Entries(ms[1..])
  {
    var own := if ms[0].Derive? || ms[0].Stamp? then ms[0].added else map[];
    assert Given(ms[0], w).Current().entries == w.Current().entries + own;
    Associative(w.Current().entries, own, Entries(ms[1..]));
  }

  lemma Associative(a: map<string, string>, b: map<string, string>, c: map<string, string>)
    ensures a + (b + c) == a + b + c
  {
  }

  /** A panic unwinds past `handleRequest` up to the innermost `Recoverer`; the held request shows it only if direct. */
  lemma {:induction false} EffectOfPanic(ms: seq<Middleware>, w: World, script: Script, now: Time, ser: Serializer)
    requires Registered(ms) && script.outcome.Panicked? && w.task.maxRetries >= 0
    ensures var (w', out) := Effect(Nest(ms + [HandleRequest], Base), w, script, now, ser);
            && out == (if Recoverer in ms then Done(None) else script.outcome)
            && w'.task == w.task && w'.store == w.store
            && w'.held.error == (if w.own.None? && Direct(ms) then Some(script.outcome.failure) else w.Current().error)
            && w'.held.after == AfterFuncs(ms, w, script) && w'.held.entries == w.Current().entries + Entries(ms)
    decreases |ms|
  {
    if ms == [] {
      assert ms + [HandleRequest] == [HandleRequest] && [HandleRequest][1..] == [];
    } else {
      assert (ms + [HandleRequest])[1..] == ms[1..] + [HandleRequest];
      assert Recoverer in ms <==> ms[0] == Recoverer || Recoverer in ms[1..];
      AfterFuncsThrough(ms, w, script);
      EntriesThrough(ms, w);
      EffectOfPanic(ms[1..], Given(ms[0], w), script, now, ser);
    }
  }

  /** A handler that returns is settled by `handleRequest`; the chain hands on what that returns. */
  lemma {:induction false} EffectOfReturn(ms: seq<Middleware>, w: World, script: Script, now: Time, ser: Serializer)
    requires Registered(ms) && script.outcome.Done? && w.task.maxRetries >= 0
    ensures var (w', out) := Effect(Nest(ms + [HandleRequest], Base), w, script, now, ser);
            var done := ErrorHandled(w.task, w.store, script.outcome.err, now, ser);
            && out == Done(done.err) && w'.task == done.task && w'.store == done.store
            && w'.held.error == w.Current().error && w'.held.after == AfterFuncs(ms, w, script)
            && w'.held.entries == w.Current().entries + Entries(ms)
    decreases |ms|
  {
    if ms == [] {
      assert ms + [HandleRequest] == [HandleRequest] && [HandleRequest][1..] == [];
      ReturnsToHandleRequest(w, script, now, ser);
      assert w.Current().entries + Entries([]) == w.Current().entries;
    } else {
      assert (ms + [HandleRequest])[1..] == ms[1..] + [HandleRequest];
      AfterFuncsThrough(ms, w, script);
      EntriesThrough(ms, w);
      EffectOfReturn(ms[1..], Given(ms[0], w), script, now, ser);
      ReturnsThrough(ms[0], Nest(ms[1..] + [HandleRequest], Base), w, script, now, ser);
    }
  }

  /** A request as the consumer makes it, for a task it will run. */
  predicate Incoming(w: World, at: Times, ser: Serializer) {
    && w.own.None? && w.held.error.None? && w.task.maxRetries >= 0 && w.task.status != CANCELED
    && Dumpable(w.task.Processing(at.start), ser)
  }

  /** The store while the handler runs. */
  function Begun(w: World, at: Times, ser: Serializer): Store<Data>
    requires Incoming(w, at, ser)
  {
    Kept(w.store, w.task.Processing(at.start), ser, at.start)
  }

  lemma PanicFinish(ms: seq<Middleware>, w: World, script: Script, at: Times, ser: Serializer)
    requires Registered(ms) && script.outcome.Panicked? && Incoming(w, at, ser) && Recoverer in ms
    ensures var end := RequestHandled(ms, w, script, at, ser);
            var err := if Direct(ms) then Some(script.outcome.failure) else None;
            var done := ErrorHandled(w.task.Processing(at.start), Begun(w, at, ser), err, at.heard, ser);
            && end.w.task == done.task && end.w.store == done.store && end.out == Done(done.err)
            && (done.err.None? ==> end.ran == AfterFuncs(ms, w, script))
  {
    var t := w.task.Processing(at.start);
    EffectOfPanic(ms, w.(task := t, store := Begun(w, at, ser)), script, at.back, ser);
  }

  /**
   A panic becomes a failure: with `Recoverer` outermost and any list of middlewares that extend the context inside it,
   the delivery of a panicking handler settles as failed (canceled for a panic with the cancellation error), and every
   function the middlewares registered runs.
   */
  lemma PanicBecomesFailure(rest: seq<Middleware>, w: World, script: Script, at: Times, ser: Serializer)
    requires forall i :: 0 <= i < |rest| ==> rest[i].Derive? || rest[i].Stamp?
    requires script.outcome.Panicked? && Incoming(w, at, ser)
    ensures var end, f := RequestHandled([Recoverer] + rest, w, script, at, ser), script.outcome.failure;
            var t := Deliveries.Settle(w.task.Processing(at.start), Some(f), at.heard);
            && end.w.task == t && t.status == (if f.TimedOut? then CANCELED else FAILED)
            && (Dumpable(t, ser) ==>
                  && end.out == Done(None)
                  && end.w.store == (if w.task.maxRetries == 0 then Kept(Begun(w, at, ser), t, ser, at.heard)
                                     else Sent(Begun(w, at, ser), t, ser, at.heard))
                  && w.held.after + Added(rest) <= end.ran)
  {
    var ms := [Recoverer] + rest;
    assert ms[1..] == rest && ms[0] == Recoverer;
    PanicFinish(ms, w, script, at, ser);
    assert Added(ms) == Added(rest);
  }

  /**
   The exact condition: a recovered panic settles the delivery as a failure when the innermost `Recoverer` comes before
   every middleware that hands on a new request; otherwise the error is left on a request nobody looks at, and the
   delivery is recorded as a success.
   */
  lemma PanicVisibility(ms: seq<Middleware>, w: World, script: Script, at: Times, ser: Serializer)
    requires Registered(ms) && script.outcome.Panicked? && Incoming(w, at, ser) && Recoverer in ms
    ensures var status := RequestHandled(ms, w, script, at, ser).w.task.status;
            && (Direct(ms) <==> status == if script.outcome.failure.TimedOut? then CANCELED else FAILED)
            && (!Direct(ms) <==> status == SUCCEEDED)
  {
    PanicFinish(ms, w, script, at, ser);
  }

  /**
   Without a `Recoverer` the panic takes the process down, but not before the worker has been sent a nil error:
   depending on how far the worker gets, the task is left stored as processing or as succeeded. It is never failed and
   never requeued.
   */
  lemma PanicUnrecovered(ms: seq<Middleware>, w: World, script: Script, at: Times, ser: Serializer)
    requires Registered(ms) && script.outcome.Panicked? && Incoming(w, at, ser)
    ensures RequestHandled(ms, w, script, at, ser).out == script.outcome <==> Recoverer !in ms
    ensures Recoverer !in ms ==>
              var end, t := RequestHandled(ms, w, script, at, ser), w.task.Processing(at.start);
              && end.w.task == (if script.steps == 0 then t else t.Succeeded(at.heard))
              && end.w.store == (if script.steps == 0 then Begun(w, at, ser)
                                 else Kept(Begun(w, at, ser), t.Succeeded(at.heard), ser, at.heard))
              && end.w.store.list == w.store.list && end.w.store.delayed == w.store.delayed
              && end.ran == (if script.steps == 0 then []
                             else if script.steps > |AfterFuncs(ms, w, script)| then AfterFuncs(ms, w, script)
                             else AfterFuncs(ms, w, script)[..script.steps - 1])
  {
    var t := w.task.Processing(at.start);
    EffectOfPanic(ms, w.(task := t, store := Begun(w, at, ser)), script, at.back, ser);
  }

  /**
   A handler that returns is settled once, at its return, whatever the middlewares; the worker's own `handleError` finds
   nothing to do, so a settled task that could not be written goes unreported.
   */
  lemma ReturnSettlesOnce(ms: seq<Middleware>, w: World, script: Script, at: Times, ser: Serializer)
    requires Registered(ms) && script.outcome.Done? && Incoming(w, at, ser)
    ensures var end := RequestHandled(ms, w, script, at, ser);
            var t := Deliveries.Settle(w.task.Processing(at.start), script.outcome.err, at.back);
            && end.w.task == t && end.out == Done(None) && end.ran == AfterFuncs(ms, w, script)
            && end.w.store ==
               if !Dumpable(t, ser) then Begun(w, at, ser)
               else if script.outcome.err.None? || w.task.maxRetries == 0 then Kept(Begun(w, at, ser), t, ser, at.back)
               else Sent(Begun(w, at, ser), t, ser, at.back)
  {
    var t := w.task.Processing(at.start);
    EffectOfReturn(ms, w.(task := t, store := Begun(w, at, ser)), script, at.back, ser);
  }
}
