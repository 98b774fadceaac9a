/**
 One delivery of a task (consumer.go): the worker waits for the handler's goroutine or for the timeout, and both end in
 `handleError` on the one task object they share. Checking that the task is still processing and marking it is one
 atomic step; everything else interleaves.
 */
module Deliveries {
  import opened Clock
  import opened Wrappers
  import opened Tasks
  import opened Redis

  /** What is left to write for the delivery. */
  datatype Stage =
    | Starting         // marked as processing in memory, not saved yet
    | Running          // saved as processing; the handler has been started
    | Saving           // settled for good; the last save is pending
    | Storing          // settled with a retry; its HMSET is pending
    | Pushing(dest: Dest) // the retry's hash is written; the id is not pushed yet
    | Closed

  /** The goroutine: still in the handler, or returned, possibly leaving an error in the context the worker holds. */
  datatype Handler = Busy | Returned(left: Option<Failure>)

  datatype Delivery = Delivery(task: TaskValue, stage: Stage, handler: Handler, waiting: bool, deadline: Time)

  /** The mark an error leaves. */
  function Marked(t: TaskValue, failure: Failure, now: Time): TaskValue {
    if failure.TimedOut? then t.Canceled(now) else t.Failed(now, Some(failure.message))
  }

  /** The memory part of `handleError` for a task that is processing. */
  function Settle(t: TaskValue, err: Option<Failure>, now: Time): TaskValue
    requires t.maxRetries >= 0
  {
    match err
    case None => t.Succeeded(now)
    case Some(failure) =>
      var marked := Marked(t, failure, now);
      if marked.maxRetries == 0 then marked else marked.Retried(now)
  }

  /** The settlement, field by field: a failing delivery with retries left spends one and takes the next ETA. */
  lemma SettledFields(t: TaskValue, err: Option<Failure>, now: Time)
    requires t.maxRetries >= 0
    ensures var r := Settle(t, err, now);
            var again := err.Some? && t.maxRetries > 0;
            && r.processedAt == now
            && r.status == (if err.None? then SUCCEEDED else if err.value.TimedOut? then CANCELED else FAILED)
            && r.error == (if err.Some? && err.value.Fault? then Raised(err.value.message) else t.error)
            && r.maxRetries == (if again then t.maxRetries - 1 else t.maxRetries)
            && r.eta == (if again && t.maxRetries <= |t.intervals|
                         then now + t.intervals[|t.intervals| - t.maxRetries] else t.eta)
            && r == t.(processedAt := r.processedAt, status := r.status, error := r.error, maxRetries := r.maxRetries,
                       eta := r.eta)
  {
    if err.Some? && t.maxRetries > 0 {
      RetryEtaInterval(Marked(t, err.value, now).(maxRetries := t.maxRetries - 1), now);
    }
  }

  /** `handleError`: nothing unless the task is still processing. */
  function HandleError(d: Delivery, err: Option<Failure>, now: Time): Delivery
    requires d.task.maxRetries >= 0
  {
    if d.task.status != PROCESSING then d
    else
      d.(task := Settle(d.task, err, now),
         stage := if err.None? || d.task.maxRetries == 0 then Saving else Storing)
  }

  datatype Event =
    | Begin                          // the save as processing, and the goroutine's start
    | Return(err: Option<Failure>)   // the handler returns; handleRequest calls handleError
    | Panic(left: Option<Failure>)   // the handler panics and is recovered; what the worker will find
    | Deadline                       // the worker's timeout fires
    | Receive                        // the worker hears from the goroutine
    | Save                           // the last save
    | StoreRetry                     // the HMSET of the retry's publication
    | PushRetry                      // its RPUSH, LPUSH or ZADD

  predicate Enabled(d: Delivery, e: Event, now: Time) {
    d.task.maxRetries >= 0 &&
    match e
    case Begin => d.stage == Starting
    case Return(_) => d.stage != Starting && d.handler == Busy
    case Panic(_) => d.stage != Starting && d.handler == Busy
    case Deadline => d.stage != Starting && d.waiting && now >= d.deadline
    case Receive => d.waiting && d.handler.Returned? && (d.stage == Running || d.stage == Closed)
    case Save => d.stage == Saving
    case StoreRetry => d.stage == Storing
    case PushRetry => d.stage.Pushing?
  }

  function Apply(d: Delivery, e: Event, now: Time): Delivery
    requires Enabled(d, e, now)
  {
    match e
    case Begin => d.(stage := Running, deadline := now + d.task.timeout)
    case Return(err) => HandleError(d, err, now).(handler := Returned(None))
    case Panic(left) => d.(handler := Returned(left))
    case Deadline => HandleError(d, Some(TimedOut), now).(waiting := false)
    case Receive => HandleError(d, d.handler.left, now).(waiting := false)
    case Save => d.(stage := Closed)
    case StoreRetry => d.(stage := Pushing(Destination(d.task.eta, now)))
    case PushRetry => d.(stage := Closed)
  }

  /** The worker has loaded the task and marked it as processing. */
  function Fresh(t: TaskValue, now: Time): Delivery {
    Delivery(t.Processing(now), Starting, Busy, true, now)
  }

  /** The task is processing exactly while nothing has settled it. */
  predicate Consistent(d: Delivery) {
    && d.task.maxRetries >= 0
    && (d.task.status == PROCESSING <==> d.stage == Starting || d.stage == Running)
    && (d.stage == Starting ==> d.handler == Busy && d.waiting)
    && (d.stage == Running ==> d.waiting)
  }

  /** An event and the clock when it happens. */
  datatype Timed = Timed(event: Event, now: Time)

  predicate Legal(d: Delivery, es: seq<Timed>)
    decreases |es|
  {
    es == [] || (Enabled(d, es[0].event, es[0].now) && Legal(Apply(d, es[0].event, es[0].now), es[1..]))
  }

  function Replay(d: Delivery, es: seq<Timed>): Delivery
    requires Legal(d, es)
    decreases |es|
  {
    if es == [] then d else Replay(Apply(d, es[0].event, es[0].now), es[1..])
  }

  predicate Settled(d: Delivery) {
    d.stage != Starting && d.stage != Running
  }

  /** The calls of `handleError`. */
  predicate CallsHandleError(e: Event) {
    e.Return? || e.Deadline? || e.Receive?
  }

  function Count(es: seq<Timed>, e: Event): nat {
    if es == [] then 0 else (if es[0].event == e then 1 else 0) + Count(es[1..], e)
  }

  lemma StepConsistent(d: Delivery, e: Event, now: Time)
    requires Consistent(d) && Enabled(d, e, now)
    ensures Consistent(Apply(d, e, now))
    ensures Settled(d) ==> Settled(Apply(d, e, now)) && Apply(d, e, now).task == d.task
    ensures d.stage == Running && CallsHandleError(e) ==> Settled(Apply(d, e, now))
  {
  }

  /** Once settled, no late outcome, timeout or message changes the task again. */
  lemma {:induction false} SettledForGood(d: Delivery, es: seq<Timed>)
    requires Consistent(d) && Settled(d) && Legal(d, es)
    ensures Replay(d, es).task == d.task && Settled(Replay(d, es))
    decreases |es|
  {
    if es != [] {
      StepConsistent(d, es[0].event, es[0].now);
      SettledForGood(Apply(d, es[0].event, es[0].now), es[1..]);
    }
  }

  /** Only the first `handleError` of a delivery acts, whoever calls it. */
  lemma FirstHandleErrorWins(d: Delivery, es: seq<Timed>)
    requires Consistent(d) && d.stage == Running && Legal(d, es) && es != [] && CallsHandleError(es[0].event)
    ensures Replay(d, es).task == Apply(d, es[0].event, es[0].now).task
    ensures var err := match es[0].event
              case Return(err) => err
              case Receive => d.handler.left
              case _ => Some(TimedOut);
            Replay(d, es).task == Settle(d.task, err, es[0].now)
  {
    StepConsistent(d, es[0].event, es[0].now);
    SettledForGood(Apply(d, es[0].event, es[0].now), es[1..]);
  }

  /** How many more saves, stores and pushes a stage can still see. */
  function WritesLeft(d: Delivery): (nat, nat, nat) {
    match d.stage
    case Starting => (1, 1, 1)
    case Running => (1, 1, 1)
    case Saving => (1, 0, 0)
    case Storing => (0, 1, 1)
    case Pushing(_) => (0, 0, 1)
    case Closed => (0, 0, 0)
  }

  /**
   One settlement per delivery, in every interleaving: at most one last save or one republication, never both, and the
   retries drop by one exactly when the task was settled with a retry.
   */
  lemma {:induction false} OneSettlement(d: Delivery, es: seq<Timed>)
    requires Consistent(d) && Legal(d, es)
    ensures Count(es, Save) <= WritesLeft(d).0
    ensures Count(es, StoreRetry) <= WritesLeft(d).1
    ensures Count(es, PushRetry) <= WritesLeft(d).2
    ensures Count(es, Save) == 0 || Count(es, PushRetry) + Count(es, StoreRetry) == 0
    ensures Settled(d) ==> Replay(d, es).task.maxRetries == d.task.maxRetries
    ensures d.task.maxRetries - 1 <= Replay(d, es).task.maxRetries <= d.task.maxRetries
    ensures !Settled(d) ==>
              (Replay(d, es).task.maxRetries == d.task.maxRetries - 1 <==>
               Replay(d, es).stage in {Storing} || Replay(d, es).stage.Pushing? || Count(es, PushRetry) == 1)
    decreases |es|
  {
    if es != [] {
      var d' := Apply(d, es[0].event, es[0].now);
      StepConsistent(d, es[0].event, es[0].now);
      OneSettlement(d', es[1..]);
      if Settled(d') {
        SettledStages(d', es[1..]);
      }
    }
  }

  /** A settled delivery stays on the side it settled on. */
  lemma {:induction false} SettledStages(d: Delivery, es: seq<Timed>)
    requires Consistent(d) && Settled(d) && Legal(d, es)
    ensures var last := Replay(d, es).stage;
            match d.stage
            case Saving => last == Saving || last == Closed
            case Storing => last == Storing || last.Pushing? || (last == Closed && Count(es, PushRetry) == 1)
            case Pushing(_) => last.Pushing? || (last == Closed && Count(es, PushRetry) == 1)
            case _ => last == Closed
    ensures d.stage in {Saving, Closed} ==> Count(es, PushRetry) == 0
    decreases |es|
  {
    if es != [] {
      StepConsistent(d, es[0].event, es[0].now);
      SettledStages(Apply(d, es[0].event, es[0].now), es[1..]);
    }
  }

  /**
   The timeout runs from the handler's start: until the worker stops waiting, it can take the timeout exactly once the
   task's timeout has passed since then, whatever else has happened.
   */
  lemma {:induction false} TimeoutRunsFromStart(d: Delivery, es: seq<Timed>, begun: Time, now: Time)
    requires Consistent(d) && d.stage != Starting && d.deadline == begun + d.task.timeout && Legal(d, es)
    requires d.waiting && Count(es, Deadline) == 0 && Count(es, Receive) == 0
    ensures Enabled(Replay(d, es), Deadline, now) <==> now >= begun + d.task.timeout
    decreases |es|
  {
    if es != [] {
      StepConsistent(d, es[0].event, es[0].now);
      TimeoutRunsFromStart(Apply(d, es[0].event, es[0].now), es[1..], begun, now);
    }
  }

  lemma TimeoutFromBegin(t: TaskValue, loaded: Time, begun: Time, es: seq<Timed>, now: Time)
    requires t.maxRetries >= 0 && Legal(Apply(Fresh(t, loaded), Begin, begun), es)
    requires Count(es, Deadline) == 0 && Count(es, Receive) == 0
    ensures Enabled(Replay(Apply(Fresh(t, loaded), Begin, begun), es), Deadline, now) <==> now >= begun + t.timeout
  {
    TimeoutRunsFromStart(Apply(Fresh(t, loaded), Begin, begun), es, begun, now);
  }

  /** A late outcome after a timeout: the task stays canceled, and what is published is the canceled task. */
  lemma TimeoutThenOutcome(d: Delivery, at: Time, es: seq<Timed>)
    requires Consistent(d) && d.stage == Running && Enabled(d, Deadline, at)
    requires Legal(Apply(d, Deadline, at), es)
    ensures Replay(Apply(d, Deadline, at), es).task.status == CANCELED
    ensures Replay(Apply(d, Deadline, at), es).task == Settle(d.task, Some(TimedOut), at)
  {
    StepConsistent(d, Deadline, at);
    SettledForGood(Apply(d, Deadline, at), es);
  }

  /**
   A recovered panic skips the goroutine's own `handleError`. Unless a timeout comes first, the worker settles it: as a
   failure if the error was left where it looks, else as a success.
   */
  lemma PanicSettles(d: Delivery, left: Option<Failure>, now: Time, later: Time)
    requires Consistent(d) && d.stage == Running && Enabled(d, Panic(left), now)
    ensures var panicked := Apply(d, Panic(left), now);
            && Consistent(panicked) && panicked.task == d.task && Enabled(panicked, Receive, later)
            && var settled := Apply(panicked, Receive, later).task;
               && settled == Settle(d.task, left, later)
               && settled.status ==
                  if left.None? then SUCCEEDED else if left.value.TimedOut? then CANCELED else FAILED
  {
  }

  lemma {:induction false} HeardOnce(d: Delivery, es: seq<Timed>)
    requires Consistent(d) && Settled(d) && !d.waiting && Legal(d, es)
    ensures Count(es, Receive) == 0 && Count(es, Deadline) == 0
    decreases |es|
  {
    if es != [] {
      StepConsistent(d, es[0].event, es[0].now);
      HeardOnce(Apply(d, es[0].event, es[0].now), es[1..]);
    }
  }

  /**
   A panic nobody recovers: the goroutine's deferred send hands the worker a nil error before the panic can leave it,
   so the process only goes down once the worker has received it. At any moment from the panic on, and so wherever the
   end of the process cuts the events off, the task is processing if the worker has heard nothing, succeeded if it has
   heard, and canceled if its timeout came first; then the send never completes, and the process lives. Only then is
   the task republished, and it never fails.
   */
  lemma UnrecoveredPanic(d: Delivery, es: seq<Timed>)
    requires Consistent(d) && d.stage == Running && d.handler == Returned(None) && Legal(d, es)
    ensures Count(es, Receive) + Count(es, Deadline) <= 1
    ensures Replay(d, es).task.status ==
            if Count(es, Receive) == 1 then SUCCEEDED else if Count(es, Deadline) == 1 then CANCELED else PROCESSING
    ensures Count(es, StoreRetry) + Count(es, PushRetry) > 0 ==> Count(es, Deadline) == 1 && d.task.maxRetries > 0
  {
    if es != [] {
      var d' := Apply(d, es[0].event, es[0].now);
      assert es[0].event == Receive || es[0].event == Deadline;
      StepConsistent(d, es[0].event, es[0].now);
      SettledForGood(d', es[1..]);
      HeardOnce(d', es[1..]);
      OneSettlement(d', es[1..]);
    }
  }
}
