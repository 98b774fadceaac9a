/**
 Tasks (task.go): the value a task holds, the transitions of its lifecycle as functions on that value, and the
 mutable task object whose methods are proved against them.
 */
module Tasks {
  import opened Clock
  import opened Wrappers

  const WAITING: int := 0
  const PROCESSING: int := 1
  const SUCCEEDED: int := 2
  const FAILED: int := 3
  const CANCELED: int := 4

  /** What the serializer reads and writes. `Null` is Go's nil interface. */
  datatype Json = Null | Text(text: string) | Other(repr: string)

  /** `Task.Error`: a Go error raised in this process, or whatever was read back from the hash (`Null` when unset). */
  datatype TaskError = Stored(value: Json) | Raised(message: string)

  /** An error reaching `handleError`; `TimedOut` is the one whose cause is `ErrTaskCanceled`. */
  datatype Failure = TimedOut | Fault(message: string)

  function {:induction false} Reverse(ds: seq<Duration>): (r: seq<Duration>)
    ensures |r| == |ds|
  {
    if ds == [] then [] else Reverse(ds[1..]) + [ds[0]]
  }

  lemma {:induction false} ReverseAt(ds: seq<Duration>, i: nat)
    requires i < |ds|
    ensures Reverse(ds)[i] == ds[|ds| - 1 - i]
  {
    if i < |ds| - 1 {
      ReverseAt(ds[1..], i);
    }
  }

  method ReverseDurations(durations: seq<Duration>) returns (results: seq<Duration>)
    ensures results == Reverse(durations)
  {
    var reversed := new Duration[|durations|];
    var j := |durations| - 1;
    for i := 0 to |durations|
      invariant j == |durations| - 1 - i
      invariant forall k :: 0 <= k < i ==> reversed[k] == durations[|durations| - 1 - k]
    {
      reversed[i] := durations[j];
      j := j - 1;
    }
    forall k | 0 <= k < |durations| ensures reversed[k] == Reverse(durations)[k] {
      ReverseAt(durations, k);
    }
    results := reversed[..];
  }

  datatype TaskValue = TaskValue(
    id: string,
    name: string,
    publishedAt: Time,
    startedAt: Time,
    processedAt: Time,
    status: int,
    oldStatus: int,
    maxRetries: int,
    payload: Json,
    result: Json,
    error: TaskError,
    ttl: Duration,
    timeout: Duration,
    eta: Time,
    intervals: seq<Duration>)
  {
    function Processing(now: Time): TaskValue {
      this.(startedAt := now, status := PROCESSING)
    }

    function Succeeded(now: Time): TaskValue {
      this.(processedAt := now, status := SUCCEEDED)
    }

    function Failed(now: Time, err: Option<string>): TaskValue {
      var marked := this.(processedAt := now, status := FAILED);
      if err.Some? then marked.(error := Raised(err.value)) else marked
    }

    function Canceled(now: Time): TaskValue {
      this.(processedAt := now, status := CANCELED)
    }

    predicate Finished() {
      || oldStatus == SUCCEEDED
      || ((oldStatus == FAILED || status == FAILED) && maxRetries == 0)
      || status == SUCCEEDED
    }

    /** A task whose retry count the source can index its intervals with. */
    predicate Retriable() {
      maxRetries >= 0 || intervals == []
    }

    /** `RetryETA`: keep the old ETA while more retries than intervals remain, then count back from the last one. */
    function RetryEta(now: Time): Time
      requires Retriable()
    {
      if maxRetries >= |intervals| then eta
      else if |intervals| > 0 then now + Reverse(intervals)[maxRetries]
      else ZERO_TIME
    }

    /** The retry part of `handleError`: one retry less, and the next ETA. */
    function Retried(now: Time): TaskValue
      requires maxRetries > 0
    {
      var spent := this.(maxRetries := maxRetries - 1);
      spent.(eta := spent.RetryEta(now))
    }
  }

  /** With intervals left, retry number `maxRetries` from the end waits for the interval at that place from the end. */
  lemma RetryEtaInterval(t: TaskValue, now: Time)
    requires t.maxRetries >= 0
    ensures t.RetryEta(now) ==
            if t.maxRetries >= |t.intervals| then t.eta
            else now + t.intervals[|t.intervals| - 1 - t.maxRetries]
  {
    if t.maxRetries < |t.intervals| {
      ReverseAt(t.intervals, t.maxRetries);
    }
  }

  /** The task object handlers, workers and the queue share by reference. */
  class Task {
    var id: string
    var name: string
    var publishedAt: Time
    var startedAt: Time
    var processedAt: Time
    var status: int
    var oldStatus: int
    var maxRetries: int
    var payload: Json
    var result: Json
    var error: TaskError
    var ttl: Duration
    var timeout: Duration
    var eta: Time
    var intervals: seq<Duration>

    /** The value the object holds. */
    function Value(): TaskValue
      reads this
    {
      TaskValue(id, name, publishedAt, startedAt, processedAt, status, oldStatus, maxRetries, payload, result, error,
                ttl, timeout, eta, intervals)
    }

    /** A task as `&Task{}` gives it. */
    constructor Zero()
      ensures Value() == TaskValue("", "", ZERO_TIME, ZERO_TIME, ZERO_TIME, WAITING, WAITING, 0, Null, Null,
                                   Stored(Null), 0, 0, ZERO_TIME, [])
    {
      id, name := "", "";
      publishedAt, startedAt, processedAt := ZERO_TIME, ZERO_TIME, ZERO_TIME;
      status, oldStatus, maxRetries := WAITING, WAITING, 0;
      payload, result, error := Null, Null, Stored(Null);
      ttl, timeout, eta, intervals := 0, 0, ZERO_TIME, [];
    }

    /** `NewTask`, given the fresh id; of the options it keeps the retries and the TTL. */
    constructor New(name: string, id: string, payload: Json, maxRetries: int, ttl: Duration, now: Time)
      ensures Value() == TaskValue(id, name, now, ZERO_TIME, ZERO_TIME, WAITING, WAITING, maxRetries, payload, Null,
                                   Stored(Null), ttl, 0, ZERO_TIME, [])
    {
      this.id, this.name, this.payload, publishedAt := id, name, payload, now;
      startedAt, processedAt, eta := ZERO_TIME, ZERO_TIME, ZERO_TIME;
      status, oldStatus, this.maxRetries := WAITING, WAITING, maxRetries;
      result, error := Null, Stored(Null);
      this.ttl, timeout, intervals := ttl, 0, [];
    }

    method MarkAsProcessing(now: Time)
      modifies this
      ensures Value() == old(Value()).Processing(now)
      ensures Value() == old(Value()).(startedAt := now, status := PROCESSING)
    {
      startedAt := now;
      status := PROCESSING;
    }

    method MarkAsSucceeded(now: Time)
      modifies this
      ensures Value() == old(Value()).Succeeded(now)
      ensures Value() == old(Value()).(processedAt := now, status := SUCCEEDED)
    {
      processedAt := now;
      status := SUCCEEDED;
    }

    method MarkAsFailed(now: Time, err: Option<string>)
      modifies this
      ensures Value() == old(Value()).Failed(now, err)
      ensures err.None? ==> Value() == old(Value()).(processedAt := now, status := FAILED)
      ensures err.Some? ==> Value() == old(Value()).(processedAt := now, status := FAILED, error := Raised(err.value))
    {
      processedAt := now;
      status := FAILED;
      if err.Some? {
        error := Raised(err.value);
      }
    }

    method MarkAsCanceled(now: Time)
      modifies this
      ensures Value() == old(Value()).Canceled(now)
      ensures Value() == old(Value()).(processedAt := now, status := CANCELED)
    {
      processedAt := now;
      status := CANCELED;
    }

    method IsFinished() returns (finished: bool)
      ensures finished <==> Value().Finished()
      ensures status == SUCCEEDED || oldStatus == SUCCEEDED ==> finished
      ensures status != SUCCEEDED && oldStatus != SUCCEEDED ==>
                (finished <==> (status == FAILED || oldStatus == FAILED) && maxRetries == 0)
    {
      if oldStatus == SUCCEEDED {
        return true;
      }
      if (oldStatus == FAILED || status == FAILED) && maxRetries == 0 {
        return true;
      }
      if status == SUCCEEDED {
        return true;
      }
      return false;
    }

    method RetryETA(now: Time) returns (next: Time)
      requires Value().Retriable()
      ensures next == Value().RetryEta(now)
      ensures maxRetries >= 0 ==>
                next == if maxRetries >= |intervals| then eta else now + intervals[|intervals| - 1 - maxRetries]
    {
      if maxRetries >= |intervals| {
        return eta;
      }
      if |intervals| > 0 {
        var reversed := ReverseDurations(intervals);
        ReverseAt(intervals, maxRetries);
        // The guard above leaves maxRetries < |reversed|: the source's fallback to the first interval is never taken.
        return now + reversed[maxRetries];
      }
      return ZERO_TIME;
    }
  }
}
