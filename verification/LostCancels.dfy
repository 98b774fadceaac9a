/** Two runs from the empty queue in which a `Cancel` goes wrong: one does not hold, the other loses the task. */
module LostCancels {
  import opened Clock
  import opened Wrappers
  import opened Tasks
  import opened CodecLaws
  import opened Redis
  import opened Protocol
  import opened Conservation
  import Draining
  import Deliveries

  /** A run one event longer. */
  lemma {:induction false} OneMore(s: State, es: seq<Event>, e: Event, id: Id)
    requires Legal(s, es) && Enabled(Replay(s, es), e)
    ensures Legal(s, es + [e]) && Replay(s, es + [e]) == Apply(Replay(s, es), e)
    ensures AllOrderly(s, es + [e]) <==> AllOrderly(s, es) && Orderly(Replay(s, es), e)
    ensures Draining.Starts(s, es + [e], id) ==
            Draining.Starts(s, es, id) + if Draining.StartsHandler(Replay(s, es), e, id) then 1 else 0
    decreases |es|
  {
    if es == [] {
      assert es + [e] == [e] && [e][1..] == [];
    } else {
      assert (es + [e])[1..] == es[1..] + [e];
      OneMore(Apply(s, es[0]), es[1..], e, id);
    }
  }

  // A cancel between the mover's snapshot and its transaction

  const DUE: Time := 10_000_000_000

  const DELAYED: TaskValue :=
    TaskValue("a", "queue", 0, ZERO_TIME, ZERO_TIME, WAITING, WAITING, 0, Text("payload"), Null, Stored(Null), 0, 0,
              DUE, [])

  const CANCELED_COPY: TaskValue := DELAYED.(processedAt := DUE, status := CANCELED)
  const CANCELED_HASH: TaskValue := CANCELED_COPY.(oldStatus := CANCELED)
  const RESTORED: TaskValue := DELAYED.(processedAt := DUE)

  function Overrun(i: nat): State
    requires i <= 12
  {
    var stored: Db := Store([], map[], map["a" := Cell(DELAYED, None)]);
    var delayed: Db := stored.(delayed := map["a" := 10]);
    var canceled: Db := delayed.(hashes := map["a" := Cell(CANCELED_HASH, None)]);
    var restored: Db := Store([], map[], map["a" := Cell(RESTORED, None)]);
    var d := Deliveries.Fresh(RESTORED, DUE);
    var started := Protocol.Saved(restored, d.task, None, DUE);
    var read := Loaded(DUE, map["a" := DELAYED]);
    match i
    case 0 => State(0, Store([], map[], map[]), Idle, map[], map[], {}, {})
    case 1 => State(0, Store([], map[], map[]), Idle, map[0 := Filing(DELAYED)], map[], {"a"}, {})
    case 2 => State(0, stored, Idle, map[0 := Filed(DELAYED, At(10))], map[], {"a"}, {})
    case 3 => State(0, delayed, Idle, map[], map[], {"a"}, {})
    case 4 => State(DUE, delayed, Idle, map[], map[], {"a"}, {})
    case 5 => State(DUE, delayed, Ranged(DUE, {"a"}), map[], map[], {"a"}, {})
    case 6 => State(DUE, delayed, read, map[], map[], {"a"}, {})
    case 7 => State(DUE, delayed, read, map[], map[0 := CANCELED_COPY], {"a"}, {})
    case 8 => State(DUE, canceled, read, map[], map[], {"a"}, {})
    case 9 => State(DUE, restored.(list := ["a"]), Idle, map[], map[], {"a"}, {})
    case 10 => State(DUE, restored, Idle, map[0 := Hand.Popped("a")], map[], {"a"}, {})
    case 11 => State(DUE, restored, Idle, map[0 := Delivering(d)], map[], {"a"}, {})
    case _ =>
      State(DUE, started, Idle, map[0 := Delivering(Deliveries.Apply(d, Deliveries.Begin, DUE))], map[], {"a"}, {})
  }

  const OVERRUN: seq<Event> := [
    Submit(0, DELAYED), File(0), Enqueue(0), Advance(DUE), Range(DUE), Snapshot, CancelGet(0, "a"), CancelSave(0),
    Move(["a"]), Pop(0), Load(0), Deliver(0, Deliveries.Begin)]

  predicate OverrunStep(i: nat)
    requires i < 12
  {
    && Enabled(Overrun(i), OVERRUN[i]) && Orderly(Overrun(i), OVERRUN[i])
    && Apply(Overrun(i), OVERRUN[i]) == Overrun(i + 1)
  }

  lemma Publishing(i: nat)
    requires i < 4
    ensures OverrunStep(i)
  {
    assert Floor(DUE) == DUE && Floor(0) == 0;
    assert Merged(BLANK, DELAYED) == DELAYED;
  }

  lemma Reading(i: nat)
    requires 4 <= i < 6
    ensures OverrunStep(i)
  {
    assert InRange(map["a" := 10], DUE) == {"a"};
    var ids, db := {"a"}, Overrun(5).db;
    assert (map id | id in ids && Visible(db, id, DUE) :: db.hashes[id].content) == map["a" := DELAYED];
  }

  lemma Canceling(i: nat)
    requires 6 <= i < 8
    ensures OverrunStep(i)
  {
    assert Floor(DUE) == DUE && Floor(0) == 0;
    assert Merged(DELAYED, CANCELED_COPY) == CANCELED_HASH;
    assert map[0 := CANCELED_COPY] - {0} == map[];
  }

  lemma Restoring()
    ensures OverrunStep(8)
  {
    RestoringDb();
  }

  lemma RestoringDb()
    ensures Moved(Overrun(8).db, DUE, map["a" := DELAYED], ["a"], DUE) == Overrun(9).db
  {
    var db := Overrun(8).db;
    assert InRange(db.delayed, DUE) == {"a"};
    RestoringCell();
    var moved := Moved(db, DUE, map["a" := DELAYED], ["a"], DUE);
    assert moved.list == ["a"];
    assert moved.delayed == map[];
    assert moved.hashes == Overrun(9).db.hashes;
  }

  lemma RestoringCell()
    ensures WrittenBack(Overrun(8).db, "a", DELAYED, DUE) == Cell(RESTORED, None)
  {
  }

  lemma Starting(i: nat)
    requires 9 <= i < 12
    ensures OverrunStep(i)
  {
  }

  lemma OverrunNext(i: nat)
    requires i < 12
    ensures OverrunStep(i)
    ensures Draining.StartsHandler(Overrun(i), OVERRUN[i], "a") <==> i == 11
  {
    if i < 4 {
      Publishing(i);
    } else if i < 6 {
      Reading(i);
    } else if i < 8 {
      Canceling(i);
    } else if i == 8 {
      Restoring();
    } else {
      Starting(i);
    }
  }

  lemma {:induction false} OverrunTo(i: nat)
    requires i <= 12
    ensures Legal(Overrun(0), OVERRUN[..i]) && AllOrderly(Overrun(0), OVERRUN[..i])
    ensures Replay(Overrun(0), OVERRUN[..i]) == Overrun(i)
    ensures Draining.Starts(Overrun(0), OVERRUN[..i], "a") == if i == 12 then 1 else 0
  {
    if i > 0 {
      OverrunTo(i - 1);
      assert OVERRUN[..i] == OVERRUN[..i - 1] + [OVERRUN[i - 1]];
      OverrunNext(i - 1);
      OneMore(Overrun(0), OVERRUN[..i - 1], OVERRUN[i - 1], "a");
    }
  }

  /**
   A cancellation that does not hold: in an orderly run from the empty queue, the task is stored as canceled before its
   handler has run, and its handler is started all the same.
   */
  lemma CanceledTaskStarts()
    ensures Initial(Overrun(0)) && Legal(Overrun(0), OVERRUN) && AllOrderly(Overrun(0), OVERRUN)
    ensures Legal(Overrun(0), OVERRUN[..8]) && Replay(Overrun(0), OVERRUN[..8]) == Overrun(8)
    ensures Overrun(8).db.hashes["a"].content.status == CANCELED && Draining.Starts(Overrun(0), OVERRUN[..8], "a") == 0
    ensures Draining.Starts(Overrun(0), OVERRUN, "a") == 1
  {
    OverrunTo(8);
    OverrunTo(12);
    assert OVERRUN[..12] == OVERRUN;
  }

  // A cancel of a task that waits for its last retry

  const MINUTE: Time := 60_000_000_000

  /** A task with one retry and a TTL of a minute, published without a countdown. */
  const ONCE: TaskValue :=
    TaskValue("a", "queue", 0, ZERO_TIME, ZERO_TIME, WAITING, WAITING, 1, Text("payload"), Null, Stored(Null), MINUTE,
              0, ZERO_TIME, [])

  const RUNNING: TaskValue := ONCE.(startedAt := 0, status := PROCESSING)
  const RUNNING_HASH: TaskValue := RUNNING.(oldStatus := PROCESSING)
  const RETRIED: TaskValue :=
    RUNNING.(processedAt := 0, status := FAILED, error := Raised("error"), maxRetries := 0)
  const RETRIED_HASH: TaskValue := RETRIED.(oldStatus := FAILED, error := Stored(Text("error")))
  const GIVEN_UP: TaskValue := RETRIED_HASH.(status := CANCELED)
  const GIVEN_UP_HASH: TaskValue := GIVEN_UP.(oldStatus := CANCELED)

  function OneTask(list: seq<Id>, t: TaskValue, expires: Option<Time>): Db {
    Store(list, map[], map["a" := Cell(t, expires)])
  }

  function OneHand(t: TaskValue, stage: Deliveries.Stage, handler: Deliveries.Handler): map<nat, Hand> {
    map[0 := Delivering(Deliveries.Delivery(t, stage, handler, true, 0))]
  }

  function Expiry(i: nat): State
    requires i <= 14
  {
    var none: Db := Store([], map[], map[]);
    var done := Deliveries.Returned(None);
    var closed := OneHand(RETRIED, Deliveries.Closed, done);
    var gone := OneTask(["a"], GIVEN_UP_HASH, Some(MINUTE));
    match i
    case 0 => State(0, none, Idle, map[], map[], {}, {})
    case 1 => State(0, none, Idle, map[0 := Filing(ONCE)], map[], {"a"}, {})
    case 2 => State(0, OneTask([], ONCE, None), Idle, map[0 := Filed(ONCE, Back)], map[], {"a"}, {})
    case 3 => State(0, OneTask(["a"], ONCE, None), Idle, map[], map[], {"a"}, {})
    case 4 => State(0, OneTask([], ONCE, None), Idle, map[0 := Hand.Popped("a")], map[], {"a"}, {})
    case 5 => State(0, OneTask([], ONCE, None), Idle, OneHand(RUNNING, Deliveries.Starting, Deliveries.Busy), map[],
                    {"a"}, {})
    case 6 => State(0, OneTask([], RUNNING_HASH, None), Idle, OneHand(RUNNING, Deliveries.Running, Deliveries.Busy),
                    map[], {"a"}, {})
    case 7 => State(0, OneTask([], RUNNING_HASH, None), Idle, OneHand(RETRIED, Deliveries.Storing, done), map[],
                    {"a"}, {})
    case 8 => State(0, OneTask([], RETRIED_HASH, None), Idle, OneHand(RETRIED, Deliveries.Pushing(Back), done), map[],
                    {"a"}, {})
    case 9 => State(0, OneTask(["a"], RETRIED_HASH, None), Idle, closed, map[], {"a"}, {})
    case 10 => State(0, OneTask(["a"], RETRIED_HASH, None), Idle, closed, map[0 := GIVEN_UP], {"a"}, {})
    case 11 => State(0, gone, Idle, closed, map[], {"a"}, {})
    case 12 => State(MINUTE, gone, Idle, closed, map[], {"a"}, {})
    case 13 => State(MINUTE, gone.(list := []), Idle, closed[1 := Hand.Popped("a")], map[], {"a"}, {})
    case _ => State(MINUTE, gone.(list := []), Idle, closed, map[], {"a"}, {})
  }

  const EXPIRY: seq<Event> := [
    Submit(0, ONCE), File(0), Enqueue(0), Pop(0), Load(0), Deliver(0, Deliveries.Begin),
    Deliver(0, Deliveries.Return(Some(Fault("error")))), Deliver(0, Deliveries.StoreRetry),
    Deliver(0, Deliveries.PushRetry), CancelGet(0, "a"), CancelSave(0), Advance(MINUTE), Pop(1), Load(1)]

  predicate ExpiryStep(i: nat)
    requires i < 14
  {
    Enabled(Expiry(i), EXPIRY[i]) && Apply(Expiry(i), EXPIRY[i]) == Expiry(i + 1)
  }

  lemma Merges()
    ensures Merged(BLANK, ONCE) == ONCE && Merged(ONCE, RUNNING) == RUNNING_HASH
    ensures Merged(RUNNING_HASH, RETRIED) == RETRIED_HASH && Merged(RETRIED_HASH, GIVEN_UP) == GIVEN_UP_HASH
  {
    assert Floor(0) == 0 && Cut(MINUTE) == MINUTE && Cut(0) == 0 && Floor(ZERO_TIME) == ZERO_TIME;
  }

  lemma FirstPublication(i: nat)
    requires i < 3
    ensures ExpiryStep(i)
  {
    Merges();
  }

  lemma FirstTry(i: nat)
    requires 3 <= i < 6
    ensures ExpiryStep(i)
  {
    Merges();
  }

  lemma Failing(i: nat)
    requires 6 <= i < 9
    ensures ExpiryStep(i)
  {
    Merges();
  }

  lemma GivingUp(i: nat)
    requires 9 <= i < 12
    ensures ExpiryStep(i)
  {
    Merges();
    assert map[0 := GIVEN_UP] - {0} == map[];
  }

  lemma Dropping(i: nat)
    requires 12 <= i < 14
    ensures ExpiryStep(i)
  {
    var closed := OneHand(RETRIED, Deliveries.Closed, Deliveries.Returned(None));
    assert closed[1 := Hand.Popped("a")] - {1} == closed;
  }

  lemma {:induction false} ExpiryTo(i: nat)
    requires i <= 14
    ensures Legal(Expiry(0), EXPIRY[..i]) && Replay(Expiry(0), EXPIRY[..i]) == Expiry(i)
  {
    if i > 0 {
      ExpiryTo(i - 1);
      assert EXPIRY[..i] == EXPIRY[..i - 1] + [EXPIRY[i - 1]];
      if i <= 3 {
        FirstPublication(i - 1);
      } else if i <= 6 {
        FirstTry(i - 1);
      } else if i <= 9 {
        Failing(i - 1);
      } else if i <= 12 {
        GivingUp(i - 1);
      } else {
        Dropping(i - 1);
      }
      OneMore(Expiry(0), EXPIRY[..i - 1], EXPIRY[i - 1], "a");
    }
  }

  lemma Nowhere()
    ensures "a" in Expiry(14).published && Places(Expiry(14), "a") == 0
  {
    assert Holders(Expiry(14), "a") == {};
  }

  /**
   A task lost to its own cancellation: canceled while it waits for its last retry, its hash expires under the id, which
   is then dropped without being settled.
   */
  lemma CanceledTaskIsLost()
    ensures Initial(Expiry(0)) && Legal(Expiry(0), EXPIRY)
    ensures Legal(Expiry(0), EXPIRY[..12]) && Replay(Expiry(0), EXPIRY[..12]) == Expiry(12)
    ensures "a" in Expiry(12).db.list && !Visible(Expiry(12).db, "a", Expiry(12).clock)
    ensures "a" in Replay(Expiry(0), EXPIRY).published && Places(Replay(Expiry(0), EXPIRY), "a") == 0
  {
    ExpiryTo(12);
    ExpiryTo(14);
    assert EXPIRY[..14] == EXPIRY;
    Nowhere();
  }
}
