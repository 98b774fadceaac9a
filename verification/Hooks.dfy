/** The hooks of a queue (queue.go): which fire for a task, and how often a task is said to be complete. */
module Hooks {
  import opened Clock
  import opened Wrappers
  import opened Tasks
  import opened Lifecycle
  import Deliveries

  /** A registered hook is known by a number; `fails` are the hooks that return an error. */
  class HookTable {
    const onStart: seq<nat>
    const onSuccess: seq<nat>
    const onFailure: seq<nat>
    const onComplete: seq<nat>

    constructor (onStart: seq<nat>, onSuccess: seq<nat>, onFailure: seq<nat>, onComplete: seq<nat>)
      ensures this.onStart == onStart && this.onSuccess == onSuccess
      ensures this.onFailure == onFailure && this.onComplete == onComplete
    {
      this.onStart, this.onSuccess, this.onFailure, this.onComplete := onStart, onSuccess, onFailure, onComplete;
    }

    /** The hooks of a task's status. */
    function ForStatus(t: TaskValue): seq<nat> {
      if t.status == PROCESSING then onStart
      else if t.status == SUCCEEDED then onSuccess
      else if t.status == FAILED || t.status == CANCELED then onFailure
      else []
    }

    /** The hooks a task's state calls for, in order. */
    function Due(t: TaskValue): seq<nat> {
      ForStatus(t) + if t.Finished() then onComplete else []
    }

    /** One of the loops of `fireEvents`: stops at the first error. */
    method Fire(hooks: seq<nat>, fails: set<nat>) returns (fired: seq<nat>, ok: bool)
      ensures ok ==> fired == hooks && forall h :: h in hooks ==> h !in fails
      ensures !ok ==> exists i :: 0 <= i < |hooks| && Stopped(hooks, fails, i) && fired == hooks[..i + 1]
    {
      fired := [];
      for i := 0 to |hooks|
        invariant fired == hooks[..i]
        invariant forall j :: 0 <= j < i ==> hooks[j] !in fails
      {
        fired := fired + [hooks[i]];
        if hooks[i] in fails {
          assert Stopped(hooks, fails, i);
          return fired, false;
        }
      }
      ok := true;
    }

    /** The first three loops of `fireEvents`; a status calls for at most one of them. */
    method FireForStatus(t: TaskValue, fails: set<nat>) returns (fired: seq<nat>, ok: bool)
      ensures ok ==> fired == ForStatus(t) && forall h :: h in ForStatus(t) ==> h !in fails
      ensures !ok ==>
                exists i :: 0 <= i < |ForStatus(t)| && Stopped(ForStatus(t), fails, i) && fired == ForStatus(t)[..i + 1]
    {
      fired, ok := [], true;
      ghost var hooks := ForStatus(t);
      if t.status == PROCESSING {
        assert hooks == onStart;
        fired, ok := Fire(onStart, fails);
      }
      if ok && t.status == SUCCEEDED {
        assert hooks == onSuccess;
        fired, ok := Fire(onSuccess, fails);
      }
      if ok && (t.status == FAILED || t.status == CANCELED) {
        assert hooks == onFailure;
        fired, ok := Fire(onFailure, fails);
      }
      if !ok {
        ghost var i :| 0 <= i < |hooks| && Stopped(hooks, fails, i) && fired == hooks[..i + 1];
      }
    }

    /** `fireEvents`: the due hooks in order, up to and with the first that fails. */
    method FireEvents(t: TaskValue, fails: set<nat>) returns (fired: seq<nat>, ok: bool)
      ensures ok <==> forall h :: h in Due(t) ==> h !in fails
      ensures ok ==> fired == Due(t)
      ensures ok ==>
                fired == (if t.status == PROCESSING then onStart else [])
                         + (if t.status == SUCCEEDED then onSuccess else [])
                         + (if t.status in {FAILED, CANCELED} then onFailure else [])
                         + (if t.Finished() then onComplete else [])
      ensures !ok ==> exists i :: 0 <= i < |Due(t)| && Stopped(Due(t), fails, i) && fired == Due(t)[..i + 1]
    {
      fired, ok := FireForStatus(t, fails);
      if !ok {
        StopsWithin(Due(t), ForStatus(t), if t.Finished() then onComplete else [], fails, fired);
        return;
      }
      if t.Finished() {
        var completed;
        completed, ok := Fire(onComplete, fails);
        if !ok {
          StopsAfter(Due(t), fired, onComplete, fails, completed);
        }
        fired := fired + completed;
      }
    }
  }

  /** The hook number `i` is the first that fails. */
  predicate Stopped(hooks: seq<nat>, fails: set<nat>, i: nat) {
    i < |hooks| && hooks[i] in fails && forall j :: 0 <= j < i ==> hooks[j] !in fails
  }

  lemma StopsWithin(due: seq<nat>, first: seq<nat>, rest: seq<nat>, fails: set<nat>, fired: seq<nat>)
    requires due == first + rest
    requires exists i :: 0 <= i < |first| && Stopped(first, fails, i) && fired == first[..i + 1]
    ensures exists i :: 0 <= i < |due| && Stopped(due, fails, i) && fired == due[..i + 1]
    ensures exists h :: h in due && h in fails
  {
    var i :| 0 <= i < |first| && Stopped(first, fails, i) && fired == first[..i + 1];
    assert due[..i + 1] == first[..i + 1];
    assert Stopped(due, fails, i) && due[i] in fails;
  }

  lemma StopsAfter(due: seq<nat>, first: seq<nat>, rest: seq<nat>, fails: set<nat>, fired: seq<nat>)
    requires due == first + rest && forall h :: h in first ==> h !in fails
    requires exists i :: 0 <= i < |rest| && Stopped(rest, fails, i) && fired == rest[..i + 1]
    ensures exists i :: 0 <= i < |due| && Stopped(due, fails, i) && first + fired == due[..i + 1]
    ensures exists h :: h in due && h in fails
  {
    var i :| 0 <= i < |rest| && Stopped(rest, fails, i) && fired == rest[..i + 1];
    assert due[..|first| + i + 1] == first + rest[..i + 1];
    assert Stopped(due, fails, |first| + i) && due[|first| + i] in fails;
  }

  // How often a failing task completes

  /** The two calls of `fireEvents` of one failing delivery that find the task finished. */
  function Completions(l: Life, d: Failing): nat
    requires Queued(l) && SoundFailing(d)
  {
    (if Step(Step(l, Load), Start(d.start)).task.Finished() then 1 else 0)
    + (if Delivered(l, d).task.Finished() then 1 else 0)
  }

  lemma DeliveredStatus(l: Life, d: Failing)
    requires Queued(l) && SoundFailing(d)
    ensures Delivered(l, d).task.status == FAILED && Delivered(l, d).task.oldStatus == l.stored.status
    ensures Delivered(l, d).task.maxRetries == Delivered(l, d).stored.maxRetries
    ensures Delivered(l, d).stored.status == FAILED
  {
    FailedBacked(l, d);
    ActsAreSteps(l, l.stored.maxRetries > 0, d);
  }

  lemma CompletionsOnce(l: Life, d: Failing)
    requires Queued(l) && SoundFailing(d) && (l.stored.status == WAITING || l.stored.status == FAILED)
    ensures Completions(l, d) ==
            if l.stored.maxRetries == 0 then (if l.stored.status == FAILED then 2 else 1)
            else if l.stored.maxRetries == 1 then 1 else 0
  {
    DeliveredStatus(l, d);
    assert l.stored.oldStatus == l.stored.status;
  }

  function AllCompletions(l: Life, ds: seq<Failing>): nat
    requires Queued(l) && Exhausting(l, ds)
    decreases |ds|
  {
    Completions(l, ds[0])
    + if l.stored.maxRetries == 0 then 0 else AllCompletions(Delivered(l, ds[0]), ds[1..])
  }

  /**
   A task that always fails does not complete once. Published with any retry, it is found finished three times: when its
   last retry is spent but still to run, when that run starts, and when it ends. Published with none, once.
   */
  lemma {:induction false} CompletesThreeTimes(l: Life, ds: seq<Failing>)
    requires Queued(l) && Exhausting(l, ds) && (l.stored.status == WAITING || l.stored.status == FAILED)
    ensures AllCompletions(l, ds) ==
            if l.stored.maxRetries > 0 then 3 else if l.stored.status == FAILED then 2 else 1
    decreases |ds|
  {
    CompletionsOnce(l, ds[0]);
    if l.stored.maxRetries > 0 {
      DeliveredStatus(l, ds[0]);
      ScheduleStep(l, ds, Delivered(l, ds[0]), ds[1..]);
      CompletesThreeTimes(Delivered(l, ds[0]), ds[1..]);
    }
  }

  /** The calls of `fireEvents` that find the task finished in a delivery that succeeds. */
  function SuccessCompletions(t: TaskValue, start: Time, end: Time): nat
    requires t.maxRetries >= 0
  {
    var p := t.Processing(start);
    (if p.Finished() then 1 else 0) + (if Deliveries.Settle(p, None, end).Finished() then 1 else 0)
  }

  /** A delivery that succeeds completes its task once, and twice exactly if the task was loaded as finished. */
  lemma SuccessCompletes(t: TaskValue, start: Time, end: Time)
    requires t.maxRetries >= 0 && t.oldStatus == t.status
    ensures SuccessCompletions(t, start, end) ==
            if t.status == SUCCEEDED || (t.status == FAILED && t.maxRetries == 0) then 2 else 1
    ensures Deliveries.Settle(t.Processing(start), None, end).status == SUCCEEDED
  {
  }
}
