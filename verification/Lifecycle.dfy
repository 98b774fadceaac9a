/**
 A task's life across saves and loads of one hash: whatever the order of loads, marks, retries and saves, the hash
 keeps telling the truth about the task, and the retries of an always-failing task follow its interval list.
 */
module Lifecycle {
  import opened Clock
  import opened Wrappers
  import opened Tasks
  import opened Codec
  import opened CodecLaws

  /** What can happen to the one task behind a hash. */
  datatype Act =
    | Load
    | Start(now: Time)
    | Succeed(now: Time)
    | Fail(now: Time, message: string)
    | Cancel(now: Time)
    | Retry(now: Time)
    | SetResult(result: Json)
    | Save

  /** The task in memory and what its hash loads as; `present` is false until the first save. */
  datatype Life = Life(present: bool, stored: TaskValue, task: TaskValue)

  /** A clock reading from 1970 on, far enough from the end of 64-bit seconds for any interval to be added. */
  predicate Sound(now: Time) {
    0 <= now < 0x4000_0000_0000_0000 * 1_000_000_000
  }

  /** When an act can happen. Handlers may replace a result, but not take one back. */
  predicate Allowed(l: Life, act: Act) {
    match act
    case Load => l.present
    case Start(now) => Sound(now)
    case Succeed(now) => Sound(now)
    case Fail(now, _) => Sound(now)
    case Cancel(now) => Sound(now)
    case Retry(now) => Sound(now) && l.task.maxRetries > 0
    case SetResult(result) => result != Null
    case Save => true
  }

  /** An act in memory; a load and a save move between memory and the hash. */
  function Step(l: Life, act: Act): Life
    requires Allowed(l, act)
  {
    match act
    case Load => l.(task := l.stored)
    case Start(now) => l.(task := l.task.Processing(now))
    case Succeed(now) => l.(task := l.task.Succeeded(now))
    case Fail(now, message) => l.(task := l.task.Failed(now, Some(message)))
    case Cancel(now) => l.(task := l.task.Canceled(now))
    case Retry(now) => l.(task := l.task.Retried(now))
    case SetResult(result) => l.(task := l.task.(result := result))
    case Save => l.(present := true, stored := Merged(l.stored, l.task))
  }

  predicate Lawful(l: Life, acts: seq<Act>)
    decreases |acts|
  {
    acts == [] || (Allowed(l, acts[0]) && Lawful(Step(l, acts[0]), acts[1..]))
  }

  function After(l: Life, acts: seq<Act>): Life
    requires Lawful(l, acts)
    decreases |acts|
  {
    if acts == [] then l else After(Step(l, acts[0]), acts[1..])
  }

  /** Everything a save of the task would leave out agrees with the hash, and the task can be written at all. */
  predicate Backed(l: Life) {
    && Representable(l.task) && l.task.payload != Null
    && Representable(l.stored) && (l.present ==> l.stored.payload != Null) && (!l.present ==> l.stored == BLANK)
    && l.stored.error.Stored?
    && Current(l.stored, l.task)
  }

  lemma StepBacked(l: Life, act: Act)
    requires Backed(l) && Allowed(l, act)
    ensures Backed(Step(l, act))
    ensures act == Save ==> Step(l, act).stored == Seen(l.task)
  {
    assert Floor(ZERO_TIME) == ZERO_TIME;
    match act
    case Save => MergedIsSeen(l.stored, l.task);
    case Retry(now) => RetryEtaInterval(l.task.(maxRetries := l.task.maxRetries - 1), now);
    case _ =>
  }

  /**
   The merged hash stays faithful: after any run of loads, marks, retries, results and saves of one task, the hash left
   by a save loads as the task in memory cut to whole seconds.
   */
  lemma {:induction false} MergedHashFaithful(l: Life, acts: seq<Act>)
    requires Backed(l) && Lawful(l, acts)
    ensures Backed(After(l, acts))
    ensures acts != [] && acts[|acts| - 1] == Save ==> After(l, acts).stored == Seen(After(l, acts).task)
    decreases |acts|
  {
    if acts != [] {
      StepBacked(l, acts[0]);
      MergedHashFaithful(Step(l, acts[0]), acts[1..]);
    }
  }

  /** A task just made by `NewTask` is backed by the hash it does not have yet. */
  lemma NewTaskBacked(t: TaskValue)
    requires Representable(t) && t.payload != Null && t.error == Stored(Null)
    ensures Backed(Life(false, BLANK, t))
  {
  }

  /** Taking a result back is the one thing a handler must not do: the stored result stays behind. */
  lemma ResultTakenBack(l: Life)
    requires Backed(l) && l.present
    ensures Step(l.(task := l.task.(result := Null)), Save).stored == Seen(l.task.(result := Null)) <==>
            l.stored.result == Null
  {
    MergedIsSeen(l.stored, l.task.(result := Null));
  }

  // The same acts on the real hash

  /** Redis and memory, with the hash as the map of texts it is. */
  datatype Raw = Raw(hash: Data, task: TaskValue)

  /** The serializer can write the task wherever the acts save it. */
  predicate Writable(r: Raw, acts: seq<Act>, ser: Serializer)
    decreases |acts|
  {
    acts == [] ||
    (&& (acts[0] == Save ==> Dumpable(r.task, ser))
     && (acts[0].Retry? ==> r.task.maxRetries > 0)
     && Writable(RawStep(r, acts[0], ser), acts[1..], ser))
  }

  function RawStep(r: Raw, act: Act, ser: Serializer): Raw
    requires act == Save ==> Dumpable(r.task, ser)
    requires act.Retry? ==> r.task.maxRetries > 0
  {
    match act
    case Load => (match Decode(r.hash, ser) case Ok(t) => r.(task := t) case Err(_) => r)
    case Start(now) => r.(task := r.task.Processing(now))
    case Succeed(now) => r.(task := r.task.Succeeded(now))
    case Fail(now, message) => r.(task := r.task.Failed(now, Some(message)))
    case Cancel(now) => r.(task := r.task.Canceled(now))
    case Retry(now) => r.(task := r.task.Retried(now))
    case SetResult(result) => r.(task := r.task.(result := result))
    case Save => r.(hash := Saved(r.hash, r.task, ser))
  }

  function RawAfter(r: Raw, acts: seq<Act>, ser: Serializer): Raw
    requires Writable(r, acts, ser)
    decreases |acts|
  {
    if acts == [] then r else RawAfter(RawStep(r, acts[0], ser), acts[1..], ser)
  }

  /** The hash of texts holds what the abstract life says. */
  predicate Represents(r: Raw, l: Life, ser: Serializer) {
    && r.task == l.task && (l.present <==> r.hash != map[])
    && Holds(r.hash, l.stored, ser)
    && (l.present ==> Decode(r.hash, ser) == Ok(l.stored))
  }

  lemma RawSimulates(r: Raw, l: Life, act: Act, ser: Serializer)
    requires ser.Lawful() && Represents(r, l, ser) && Backed(l) && Allowed(l, act)
    requires act == Save ==> Dumpable(r.task, ser)
    ensures Represents(RawStep(r, act, ser), Step(l, act), ser)
  {
    if act == Save {
      LoadAfterSave(r.hash, l.stored, l.task, ser);
      SaveOverwrites(r.hash, l.task, ser, Id);
    }
  }

  /** On the hash of texts too: the last save of any run decodes to the task in memory cut to whole seconds. */
  lemma {:induction false} RawHashFaithful(r: Raw, l: Life, acts: seq<Act>, ser: Serializer)
    requires ser.Lawful() && Represents(r, l, ser) && Backed(l) && Lawful(l, acts) && Writable(r, acts, ser)
    ensures Represents(RawAfter(r, acts, ser), After(l, acts), ser)
    ensures acts != [] && acts[|acts| - 1] == Save ==>
              Decode(RawAfter(r, acts, ser).hash, ser) == Ok(Seen(RawAfter(r, acts, ser).task))
    decreases |acts|
  {
    MergedHashFaithful(l, acts);
    if acts != [] {
      StepBacked(l, acts[0]);
      RawSimulates(r, l, acts[0], ser);
      RawHashFaithful(RawStep(r, acts[0], ser), Step(l, acts[0]), acts[1..], ser);
      if acts[|acts| - 1] == Save {
        PresentAfterSave(l, acts);
      }
    }
  }

  lemma {:induction false} PresentAfterSave(l: Life, acts: seq<Act>)
    requires Lawful(l, acts) && acts != [] && acts[|acts| - 1] == Save
    ensures After(l, acts).present
    decreases |acts|
  {
    if |acts| > 1 {
      PresentAfterSave(Step(l, acts[0]), acts[1..]);
    }
  }

  /**
   From the first save on: whatever happens to a task `NewTask` made, the hash its last save leaves decodes to the task
   in memory cut to whole seconds.
   */
  lemma NewTaskHashFaithful(t: TaskValue, acts: seq<Act>, ser: Serializer)
    requires ser.Lawful() && Representable(t) && t.payload != Null && t.error == Stored(Null)
    requires Lawful(Life(false, BLANK, t), acts) && Writable(Raw(map[], t), acts, ser)
    ensures acts != [] && acts[|acts| - 1] == Save ==>
              Decode(RawAfter(Raw(map[], t), acts, ser).hash, ser) == Ok(Seen(RawAfter(Raw(map[], t), acts, ser).task))
  {
    NewTaskBacked(t);
    RawHashFaithful(Raw(map[], t), Life(false, BLANK, t), acts, ser);
  }

  // Retries of an always-failing task

  /** The clock readings and the error of one failing delivery. */
  datatype Failing = Failing(start: Time, end: Time, message: string)

  predicate SoundFailing(d: Failing) {
    Sound(d.start) && Sound(d.end)
  }

  /** One failing delivery: load, mark as processing, save, fail, then retry if any retry is left, and save. */
  function Acts(retriesLeft: bool, d: Failing): seq<Act> {
    [Load, Start(d.start), Save, Fail(d.end, d.message)] + (if retriesLeft then [Retry(d.end), Save] else [Save])
  }

  /** The stored task can be delivered: it is cut to whole seconds, as anything loaded from a hash is. */
  predicate Queued(l: Life) {
    && l.present && Backed(l) && l.stored.maxRetries >= 0
    && Seen(l.stored) == l.stored
  }

  /** The life once the handler has failed and the error is marked, before any retry. */
  function Failed(l: Life, d: Failing): Life
    requires l.present && SoundFailing(d)
  {
    Step(Step(Step(Step(l, Load), Start(d.start)), Save), Fail(d.end, d.message))
  }

  lemma FailedBacked(l: Life, d: Failing)
    requires Queued(l) && SoundFailing(d)
    ensures var l4 := Failed(l, d);
            && Backed(l4) && l4.present
            && l4.task.eta == l.stored.eta && l4.task.maxRetries == l.stored.maxRetries
            && l4.task.intervals == l.stored.intervals
  {
    assert Floor(ZERO_TIME) == ZERO_TIME;
    StepBacked(l, Load);
    StepBacked(Step(l, Load), Start(d.start));
    StepBacked(Step(Step(l, Load), Start(d.start)), Save);
    StepBacked(Step(Step(Step(l, Load), Start(d.start)), Save), Fail(d.end, d.message));
  }

  lemma LastActs(l: Life, retry: bool, d: Failing)
    requires SoundFailing(d) && (retry ==> l.task.maxRetries > 0)
    ensures var acts := if retry then [Retry(d.end), Save] else [Save];
            Lawful(l, acts) && After(l, acts) == Step(if retry then Step(l, Retry(d.end)) else l, Save)
  {
    if retry {
      AfterTwo(l, Retry(d.end), Save);
    } else {
      AfterOne(l, Save);
    }
  }

  lemma ActsShape(retry: bool, d: Failing)
    ensures var acts := Acts(retry, d);
            && |acts| >= 4 && acts[0] == Load && acts[1] == Start(d.start) && acts[2] == Save
            && acts[3] == Fail(d.end, d.message)
            && acts[4..] == if retry then [Retry(d.end), Save] else [Save]
  {
  }

  lemma FirstActs(l: Life, acts: seq<Act>, d: Failing)
    requires l.present && SoundFailing(d) && |acts| >= 4
    requires acts[0] == Load && acts[1] == Start(d.start) && acts[2] == Save && acts[3] == Fail(d.end, d.message)
    requires Lawful(Failed(l, d), acts[4..])
    ensures Lawful(l, acts) && After(l, acts) == After(Failed(l, d), acts[4..])
  {
    var l1 := Step(l, Load);
    var l2 := Step(l1, Start(d.start));
    Unroll(l, acts, l1, l2, Step(l2, Save), Failed(l, d));
  }

  lemma ActsAreSteps(l: Life, retry: bool, d: Failing)
    requires l.present && SoundFailing(d) && (retry ==> Failed(l, d).task.maxRetries > 0)
    ensures Lawful(l, Acts(retry, d))
    ensures After(l, Acts(retry, d)) ==
            Step(if retry then Step(Failed(l, d), Retry(d.end)) else Failed(l, d), Save)
  {
    ActsShape(retry, d);
    LastActs(Failed(l, d), retry, d);
    FirstActs(l, Acts(retry, d), d);
  }

  lemma AfterOne(l: Life, a: Act)
    requires Allowed(l, a)
    ensures Lawful(l, [a]) && After(l, [a]) == Step(l, a)
  {
    assert [a][1..] == [];
  }

  lemma AfterTwo(l: Life, a: Act, b: Act)
    requires Allowed(l, a) && Allowed(Step(l, a), b)
    ensures Lawful(l, [a, b]) && After(l, [a, b]) == Step(Step(l, a), b)
  {
    assert [a, b][1..] == [b];
    AfterOne(Step(l, a), b);
  }

  lemma Unroll(l: Life, acts: seq<Act>, l1: Life, l2: Life, l3: Life, l4: Life)
    requires |acts| >= 4
    requires Allowed(l, acts[0]) && l1 == Step(l, acts[0])
    requires Allowed(l1, acts[1]) && l2 == Step(l1, acts[1])
    requires Allowed(l2, acts[2]) && l3 == Step(l2, acts[2])
    requires Allowed(l3, acts[3]) && l4 == Step(l3, acts[3])
    requires Lawful(l4, acts[4..])
    ensures Lawful(l, acts) && After(l, acts) == After(l4, acts[4..])
  {
    var a1, a2, a3 := acts[1..], acts[2..], acts[3..];
    assert a1[1..] == a2 && a2[1..] == a3 && a3[1..] == acts[4..];
    assert Lawful(l3, a3) && After(l3, a3) == After(l4, acts[4..]);
    assert Lawful(l2, a2) && After(l2, a2) == After(l4, acts[4..]);
    assert Lawful(l1, a1) && After(l1, a1) == After(l4, acts[4..]);
  }

  lemma DeliveredOnce(l: Life, d: Failing)
    requires Queued(l) && SoundFailing(d)
    ensures Lawful(l, Acts(l.stored.maxRetries > 0, d))
    ensures var t, l' := l.stored, After(l, Acts(l.stored.maxRetries > 0, d));
            && Queued(l')
            && l'.task.eta == (if t.maxRetries > 0 then t.(maxRetries := t.maxRetries - 1).RetryEta(d.end) else t.eta)
            && l'.stored.eta == Floor(l'.task.eta)
            && l'.stored.maxRetries == (if t.maxRetries > 0 then t.maxRetries - 1 else 0)
            && l'.stored.intervals == t.intervals
  {
    FailedBacked(l, d);
    var l4 := Failed(l, d);
    ActsAreSteps(l, l.stored.maxRetries > 0, d);
    var l5 := if l.stored.maxRetries > 0 then Step(l4, Retry(d.end)) else l4;
    if l.stored.maxRetries > 0 {
      StepBacked(l4, Retry(d.end));
    }
    StepBacked(l5, Save);
    SeenTwice(l5.task);
  }

  /** The life after one failing delivery. */
  function Delivered(l: Life, d: Failing): (l': Life)
    requires Queued(l) && SoundFailing(d)
    ensures Queued(l') && l'.stored.maxRetries == (if l.stored.maxRetries > 0 then l.stored.maxRetries - 1 else 0)
    ensures l'.stored.intervals == l.stored.intervals && l'.stored.eta == Floor(l'.task.eta)
    ensures l.stored.maxRetries > 0 ==>
              l'.task.eta == l.stored.(maxRetries := l.stored.maxRetries - 1).RetryEta(d.end)
  {
    DeliveredOnce(l, d);
    After(l, Acts(l.stored.maxRetries > 0, d))
  }

  lemma DeliveredEta(l: Life, d: Failing)
    requires Queued(l) && SoundFailing(d) && l.stored.maxRetries > 0
    ensures var n, k := l.stored.maxRetries, |l.stored.intervals|;
            Delivered(l, d).task.eta == if n - 1 >= k then l.stored.eta else d.end + l.stored.intervals[k - n]
    ensures l.stored.maxRetries - 1 >= |l.stored.intervals| ==> Delivered(l, d).stored.eta == l.stored.eta
  {
    RetryEtaInterval(l.stored.(maxRetries := l.stored.maxRetries - 1), d.end);
    assert Floor(l.stored.eta) == l.stored.eta;
  }

  /** The clock readings of enough failing deliveries to exhaust the retries. */
  predicate Exhausting(l: Life, ds: seq<Failing>) {
    |ds| > l.stored.maxRetries && forall i :: 0 <= i < |ds| ==> SoundFailing(ds[i])
  }

  /** How many times the handler runs before the task is left alone. */
  function Runs(l: Life, ds: seq<Failing>): nat
    requires Queued(l) && Exhausting(l, ds)
    decreases |ds|
  {
    if l.stored.maxRetries == 0 then 1 else 1 + Runs(Delivered(l, ds[0]), ds[1..])
  }

  /** The ETAs the task is republished with, one per retry. */
  function Republished(l: Life, ds: seq<Failing>): seq<Time>
    requires Queued(l) && Exhausting(l, ds)
    decreases |ds|
  {
    if l.stored.maxRetries == 0 then []
    else [Delivered(l, ds[0]).task.eta] + Republished(Delivered(l, ds[0]), ds[1..])
  }

  /** What the schedule says about ETAs: `n` retries left, the task's ETA and intervals, the failing deliveries. */
  predicate Follows(etas: seq<Time>, n: nat, eta: Time, intervals: seq<Duration>, ds: seq<Failing>)
    requires |ds| > n
  {
    && |etas| == n
    && forall i :: 0 <= i < n ==>
         etas[i] == if i < n - |intervals| then eta else ds[i].end + intervals[|intervals| - n + i]
  }

  lemma FollowsOneMore(first: Time, etas: seq<Time>, n: nat, eta: Time, later: Time, intervals: seq<Duration>,
                       ds: seq<Failing>)
    requires |ds| > n > 0
    requires Follows(etas, n - 1, later, intervals, ds[1..])
    requires n - 1 >= |intervals| ==> first == eta == later
    requires n - 1 < |intervals| ==> first == ds[0].end + intervals[|intervals| - n]
    ensures Follows([first] + etas, n, eta, intervals, ds)
  {
  }

  /**
   The retry schedule: with N retries and L intervals the handler runs N + 1 times; the first N - L retries, if any,
   inherit the ETA, and the others wait for the last intervals of the list, in list order.
   */
  lemma {:induction false} RetrySchedule(l: Life, ds: seq<Failing>)
    requires Queued(l) && Exhausting(l, ds)
    ensures Runs(l, ds) == l.stored.maxRetries + 1
    ensures Follows(Republished(l, ds), l.stored.maxRetries, l.stored.eta, l.stored.intervals, ds)
    decreases |ds|
  {
    if l.stored.maxRetries > 0 {
      var l', rest := Delivered(l, ds[0]), ds[1..];
      ScheduleStep(l, ds, l', rest);
      RetrySchedule(l', rest);
      ScheduleJoins(l, ds, l', rest, Republished(l', rest));
    }
  }

  lemma ScheduleJoins(l: Life, ds: seq<Failing>, l': Life, rest: seq<Failing>, etas: seq<Time>)
    requires Queued(l) && Exhausting(l, ds) && l.stored.maxRetries > 0
    requires l' == Delivered(l, ds[0]) && rest == ds[1..] && |rest| > l'.stored.maxRetries
    requires Follows(etas, l'.stored.maxRetries, l'.stored.eta, l'.stored.intervals, rest)
    ensures Follows([l'.task.eta] + etas, l.stored.maxRetries, l.stored.eta, l.stored.intervals, ds)
  {
    DeliveredEta(l, ds[0]);
    FollowsOneMore(l'.task.eta, etas, l.stored.maxRetries, l.stored.eta, l'.stored.eta, l.stored.intervals, ds);
  }

  lemma ScheduleStep(l: Life, ds: seq<Failing>, l': Life, rest: seq<Failing>)
    requires Queued(l) && Exhausting(l, ds) && l.stored.maxRetries > 0
    requires l' == Delivered(l, ds[0]) && rest == ds[1..]
    ensures Exhausting(l', rest)
    ensures Runs(l, ds) == 1 + Runs(l', rest)
    ensures Republished(l, ds) == [l'.task.eta] + Republished(l', rest)
  {
  }

  /** A first publication satisfies what the schedule asks of the stored task. */
  lemma PublishedQueued(t: TaskValue)
    requires Representable(t) && t.payload != Null && t.error == Stored(Null) && t.maxRetries >= 0
    ensures Queued(Step(Life(false, BLANK, t), Save))
    ensures Step(Life(false, BLANK, t), Save).stored == Seen(t)
  {
    StepBacked(Life(false, BLANK, t), Save);
    SeenTwice(t);
  }
}
