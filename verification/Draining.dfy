/** The queue drains: handler runs are bounded, every working event lowers a measure, and no state is stuck. */
module Draining {
  import opened Clock
  import opened Wrappers
  import opened Tasks
  import opened Redis
  import opened Protocol
  import opened Accounts
  import opened Safety
  import opened Runs
  import Deliveries

  // Handler runs

  /** The event starts the handler on the task `id`. */
  predicate StartsHandler(s: State, e: Event, id: Id) {
    e.Deliver? && e.event.Begin? && e.key in s.hands && s.hands[e.key].Delivering?
    && s.hands[e.key].delivery.task.id == id
  }

  function Starts(s: State, es: seq<Event>, id: Id): nat
    requires Legal(s, es)
    decreases |es|
  {
    if es == [] then 0 else (if StartsHandler(s, es[0], id) then 1 else 0) + Starts(Apply(s, es[0]), es[1..], id)
  }

  function UsedIn(l: Ledger, id: Id): nat {
    if id in l then l[id].used else 0
  }

  lemma StepUses(s: State, e: Event, l: Ledger, id: Id)
    requires Inv(s, l) && Enabled(s, e) && Orderly(s, e)
    ensures UsedIn(Next(s, e, l), id) == UsedIn(l, id) + (if StartsHandler(s, e, id) then 1 else 0)
    ensures id in l ==> id in Next(s, e, l) && Next(s, e, l)[id].granted == l[id].granted
    ensures e.Submit? && e.task.id == id ==> id in Next(s, e, l) && Next(s, e, l)[id].granted == e.task.maxRetries
  {
    if e.Deliver? && !s.hands[e.key].delivery.stage.Closed? {
      assert Holds(s.hands[e.key]) == Some(s.hands[e.key].delivery.task.id);
    }
  }

  lemma {:induction false} RunUses(s: State, es: seq<Event>, l: Ledger, id: Id)
    requires Inv(s, l) && Legal(s, es) && AllOrderly(s, es)
    ensures UsedIn(LedgerAfter(s, es, l), id) == UsedIn(l, id) + Starts(s, es, id)
    ensures id in l ==> id in LedgerAfter(s, es, l) && LedgerAfter(s, es, l)[id].granted == l[id].granted
    decreases |es|
  {
    if es != [] {
      StepKeeps(s, es[0], l);
      StepUses(s, es[0], l, id);
      RunUses(Apply(s, es[0]), es[1..], Next(s, es[0], l), id);
    }
  }

  /** The retries a run publishes the id with. */
  function PublishedWith(es: seq<Event>, id: Id): Option<int> {
    if es == [] then None
    else if es[0].Submit? && es[0].task.id == id then Some(es[0].task.maxRetries)
    else PublishedWith(es[1..], id)
  }

  lemma {:induction false} RunGrants(s: State, es: seq<Event>, l: Ledger, id: Id)
    requires Inv(s, l) && Legal(s, es) && AllOrderly(s, es) && PublishedWith(es, id).Some?
    ensures id in LedgerAfter(s, es, l) && LedgerAfter(s, es, l)[id].granted == PublishedWith(es, id).value
    decreases |es|
  {
    StepKeeps(s, es[0], l);
    if es[0].Submit? && es[0].task.id == id {
      StepUses(s, es[0], l, id);
      RunUses(Apply(s, es[0]), es[1..], Next(s, es[0], l), id);
    } else {
      RunGrants(Apply(s, es[0]), es[1..], Next(s, es[0], l), id);
    }
  }

  /** Handler runs are bounded: a task published with N retries has its handler started at most N + 1 times, ever. */
  lemma HandlerRunsBounded(s: State, es: seq<Event>, id: Id)
    requires Initial(s) && Legal(s, es) && AllOrderly(s, es)
    ensures Starts(s, es, id) <= match PublishedWith(es, id) case Some(n) => n + 1 case None => 0
  {
    InitialInv(s);
    var l := LedgerAfter(s, es, map[]);
    RunUses(s, es, map[], id);
    if PublishedWith(es, id).Some? {
      RunGrants(s, es, map[], id);
      assert AccountOk(Replay(s, es), id, l[id]);
    } else {
      NeverPublished(s, es, map[], id);
    }
  }

  lemma {:induction false} NeverPublished(s: State, es: seq<Event>, l: Ledger, id: Id)
    requires Inv(s, l) && Legal(s, es) && AllOrderly(s, es) && PublishedWith(es, id).None? && id !in l
    ensures id !in LedgerAfter(s, es, l)
    decreases |es|
  {
    if es != [] {
      StepKeeps(s, es[0], l);
      NeverPublished(Apply(s, es[0]), es[1..], Next(s, es[0], l), id);
    }
  }

  // The measure

  function StageDistance(stage: Deliveries.Stage): nat {
    match stage
    case Starting => 1
    case Running => 7
    case Saving => 6
    case Storing => 6
    case Pushing(_) => 5
    case Closed => 0
  }

  function HandDistance(h: Hand): nat {
    match h
    case Filing(_) => 6
    case Filed(_, _) => 5
    case Popped(_) => 2
    case Delivering(d) => StageDistance(d.stage)
  }

  /** How far an id is from being settled within one attempt. */
  function Distance(s: State, a: Account): nat {
    match a.place
    case Listed => 3
    case Delayed => 4
    case Done => 0
    case Held(key) => if key in s.hands then HandDistance(s.hands[key]) else 0
  }

  /** The handler runs left, then the distance; nothing is left of a settled id. */
  function Rank(s: State, a: Account): nat {
    if a.place.Done? || a.used > a.granted + 1 then 0 else 8 * (a.granted + 1 - a.used) + Distance(s, a)
  }

  function Ranks(s: State, l: Ledger): map<Id, nat> {
    map id | id in l :: Rank(s, l[id])
  }

  ghost function Sum(m: map<Id, nat>): nat
    decreases |m|
  {
    if m == map[] then 0
    else
      var id :| id in m;
      assert (m - {id}).Keys == m.Keys - {id};
      m[id] + Sum(m - {id})
  }

  lemma {:induction false} SumWithout(m: map<Id, nat>, x: Id)
    requires x in m
    ensures Sum(m) == m[x] + Sum(m - {x})
    decreases |m|
  {
    var id :| id in m && Sum(m) == m[id] + Sum(m - {id});
    if id != x {
      assert (m - {id}).Keys == m.Keys - {id};
      assert (m - {x}).Keys == m.Keys - {x};
      SumWithout(m - {id}, x);
      assert m - {id} - {x} == m - {x} - {id};
      SumWithout(m - {x}, id);
    }
  }

  lemma {:induction false} SumMonotone(m: map<Id, nat>, m': map<Id, nat>)
    requires m.Keys == m'.Keys && forall id :: id in m ==> m'[id] <= m[id]
    ensures Sum(m') <= Sum(m)
    ensures (exists id :: id in m && m'[id] < m[id]) ==> Sum(m') < Sum(m)
    decreases |m|
  {
    if m == map[] {
      assert m' == map[];
    } else {
      var x :| x in m;
      if id :| id in m && m'[id] < m[id] {
        x := id;
      }
      assert (m - {x}).Keys == m.Keys - {x} && (m' - {x}).Keys == m'.Keys - {x};
      SumWithout(m, x);
      SumWithout(m', x);
      SumMonotone(m - {x}, m' - {x});
    }
  }

  /** The id an event works on: the one its hand holds, or the one it pops. */
  function Actor(s: State, e: Event): Option<Id>
    requires Enabled(s, e)
  {
    match e
    case File(key) => Holds(s.hands[key])
    case Enqueue(key) => Holds(s.hands[key])
    case Load(key) => Holds(s.hands[key])
    case Deliver(key, _) => Holds(s.hands[key])
    case Pop(_) => Some(s.db.list[|s.db.list| - 1])
    case _ => None
  }

  /** The event moves some task forward: anything but clock, mover reads, cancels, and calls that find nothing to do. */
  predicate Progress(s: State, e: Event)
    requires Enabled(s, e)
  {
    match e
    case File(_) => true
    case Enqueue(_) => true
    case Load(_) => true
    case Pop(_) => true
    case Deliver(key, event) =>
      event.Begin? || event.Save? || event.StoreRetry? || event.PushRetry? ||
      (!event.Panic? && s.hands[key].delivery.task.status == PROCESSING)
    case Move(_) => true
    case _ => false
  }

  lemma LoadRank(s: State, key: nat, l: Ledger, x: Id)
    requires Inv(s, l) && Enabled(s, Load(key)) && Holds(s.hands[key]) == Some(x)
    ensures x in l && x in Next(s, Load(key), l)
    ensures Rank(Apply(s, Load(key)), Next(s, Load(key), l)[x]) < Rank(s, l[x])
  {
    LoadFinds(s, key, l);
  }

  lemma ActorRank(s: State, e: Event, l: Ledger, x: Id)
    requires Inv(s, l) && Enabled(s, e) && Actor(s, e) == Some(x) && (e.File? || e.Enqueue? || e.Load? || e.Pop?)
    ensures x in l && x in Next(s, e, l) && Rank(Apply(s, e), Next(s, e, l)[x]) < Rank(s, l[x])
  {
    if e.Load? {
      LoadRank(s, e.key, l, x);
    } else {
      assert x in l && AccountOk(s, x, l[x]);
    }
  }

  /** Within a delivery every working event but the handler's start comes nearer to the end. */
  lemma DeliveryDistance(d: Deliveries.Delivery, event: Deliveries.Event, now: Time)
    requires Deliveries.Consistent(d) && Deliveries.Enabled(d, event, now) && !event.Begin? && !event.PushRetry?
    ensures var d' := Deliveries.Apply(d, event, now);
            && StageDistance(d'.stage) <= StageDistance(d.stage)
            && (event.Save? || event.StoreRetry? || (!event.Panic? && d.task.status == PROCESSING) ==>
                  StageDistance(d'.stage) < StageDistance(d.stage))
  {
  }

  lemma DeliveryRank(s: State, key: nat, event: Deliveries.Event, l: Ledger, x: Id)
    requires Inv(s, l) && Enabled(s, Deliver(key, event)) && Holds(s.hands[key]) == Some(x)
    ensures x in l && x in Next(s, Deliver(key, event), l)
    ensures var s', l' := Apply(s, Deliver(key, event)), Next(s, Deliver(key, event), l);
            && Rank(s', l'[x]) <= Rank(s, l[x])
            && (Progress(s, Deliver(key, event)) ==> Rank(s', l'[x]) < Rank(s, l[x]))
  {
    assert x in l && l[x].place == Held(key) && AccountOk(s, x, l[x]);
    if !event.Begin? && !event.PushRetry? {
      DeliveryDistance(s.hands[key].delivery, event, s.clock);
    }
  }

  /** An id that is neither the actor nor moved keeps its account. */
  lemma OtherAccount(s: State, e: Event, l: Ledger, id: Id)
    requires Inv(s, l) && Enabled(s, e) && !e.Submit? && id in l
    requires Actor(s, e) != Some(id) && (e.Move? ==> id !in s.mover.snapshot)
    ensures id in Next(s, e, l) && Next(s, e, l)[id] == l[id]
  {
    if e.Deliver? {
      assert s.hands[e.key].delivery.stage.Closed? || Holds(s.hands[e.key]).Some?;
    }
  }

  lemma OtherHand(s: State, e: Event, l: Ledger, id: Id, key: nat)
    requires Inv(s, l) && Enabled(s, e) && !e.Submit? && id in l && l[id].place == Held(key)
    requires Actor(s, e) != Some(id)
    ensures key in s.hands && Holds(s.hands[key]) == Some(id)
    ensures key in Apply(s, e).hands && Apply(s, e).hands[key] == s.hands[key]
  {
    assert AccountOk(s, id, l[id]);
    HandsApart(s, e, key);
  }

  /** Events touch no hand but their own. */
  lemma HandsApart(s: State, e: Event, key: nat)
    requires Enabled(s, e) && key in s.hands
    requires e.File? || e.Enqueue? || e.Load? || e.Deliver? ==> key != e.key
    ensures key in Apply(s, e).hands && Apply(s, e).hands[key] == s.hands[key]
  {
  }

  lemma OtherRank(s: State, e: Event, l: Ledger, id: Id)
    requires Inv(s, l) && Enabled(s, e) && !e.Submit? && id in l
    requires Actor(s, e) != Some(id) && (e.Move? ==> id !in s.mover.snapshot)
    ensures id in Next(s, e, l) && Rank(Apply(s, e), Next(s, e, l)[id]) == Rank(s, l[id])
  {
    OtherAccount(s, e, l, id);
    if l[id].place.Held? {
      OtherHand(s, e, l, id, l[id].place.key);
    }
  }

  lemma MovedRank(s: State, order: seq<Id>, l: Ledger, id: Id)
    requires Inv(s, l) && Enabled(s, Move(order)) && id in s.mover.snapshot
    ensures id in l && id in Next(s, Move(order), l)
    ensures Rank(Apply(s, Move(order)), Next(s, Move(order), l)[id]) < Rank(s, l[id])
  {
    assert id in InRange(s.db.delayed, s.mover.max);
    assert id in l && AccountOk(s, id, l[id]);
  }

  /** What is left to do in the whole queue. */
  ghost function Work(s: State, l: Ledger): nat {
    Sum(Ranks(s, l))
  }

  lemma StepWork(s: State, e: Event, l: Ledger)
    requires Inv(s, l) && Enabled(s, e) && Orderly(s, e) && !e.Submit?
    ensures Work(Apply(s, e), Next(s, e, l)) <= Work(s, l)
    ensures Progress(s, e) ==> Work(Apply(s, e), Next(s, e, l)) < Work(s, l)
  {
    var s', l' := Apply(s, e), Next(s, e, l);
    var before, after := Ranks(s, l), Ranks(s', l');
    StepKeeps(s, e, l);
    assert l'.Keys == l.Keys;
    forall id | id in l ensures after[id] <= before[id] {
      RankFalls(s, e, l, id);
    }
    if Progress(s, e) {
      var x := Advanced(s, e, l);
      RankFalls(s, e, l, x);
      assert x in before && after[x] < before[x];
    }
    SumMonotone(before, after);
  }

  /** An id a working event brings forward. */
  ghost function Advanced(s: State, e: Event, l: Ledger): (x: Id)
    requires Inv(s, l) && Enabled(s, e) && Progress(s, e)
    ensures x in l && (Actor(s, e) == Some(x) || (e.Move? && x in s.mover.snapshot))
  {
    if e.Move? then
      var x :| x in s.mover.snapshot;
      x
    else
      Actor(s, e).value
  }

  lemma RankFalls(s: State, e: Event, l: Ledger, id: Id)
    requires Inv(s, l) && Enabled(s, e) && !e.Submit? && id in l
    ensures id in Next(s, e, l) && Rank(Apply(s, e), Next(s, e, l)[id]) <= Rank(s, l[id])
    ensures Progress(s, e) && (Actor(s, e) == Some(id) || (e.Move? && id in s.mover.snapshot)) ==>
              Rank(Apply(s, e), Next(s, e, l)[id]) < Rank(s, l[id])
  {
    if e.Move? && id in s.mover.snapshot {
      MovedRank(s, e.order, l, id);
    } else if Actor(s, e) == Some(id) {
      if e.Deliver? {
        DeliveryRank(s, e.key, e.event, l, id);
      } else {
        ActorRank(s, e, l, id);
      }
    } else {
      OtherRank(s, e, l, id);
    }
  }

  /** The working events of a run. */
  function Worked(s: State, es: seq<Event>): nat
    requires Legal(s, es)
    decreases |es|
  {
    if es == [] then 0 else (if Progress(s, es[0]) then 1 else 0) + Worked(Apply(s, es[0]), es[1..])
  }

  predicate NothingSubmitted(es: seq<Event>) {
    forall i :: 0 <= i < |es| ==> !es[i].Submit?
  }

  /**
   The queue drains: once nothing more is published, an orderly run holds at most as many working events as the measure
   says, whatever else it does.
   */
  lemma {:induction false} WorkIsBounded(s: State, es: seq<Event>, l: Ledger)
    requires Inv(s, l) && Legal(s, es) && AllOrderly(s, es) && NothingSubmitted(es)
    ensures Worked(s, es) + Work(Replay(s, es), LedgerAfter(s, es, l)) <= Work(s, l)
    decreases |es|
  {
    if es != [] {
      StepKeeps(s, es[0], l);
      StepWork(s, es[0], l);
      WorkIsBounded(Apply(s, es[0]), es[1..], Next(s, es[0], l));
    }
  }

  // No state is stuck

  ghost function Enumeration(ids: set<Id>): (order: seq<Id>)
    ensures forall id :: id in order <==> id in ids
    ensures forall i, j :: 0 <= i < j < |order| ==> order[i] != order[j]
  {
    if ids == {} then []
    else
      var id :| id in ids;
      Enumeration(ids - {id}) + [id]
  }

  /** A bound above every key. */
  ghost function Above(keys: set<nat>): (n: nat)
    ensures forall k :: k in keys ==> k < n
  {
    if keys == {} then 0
    else
      var k :| k in keys;
      var rest := Above(keys - {k});
      assert keys == (keys - {k}) + {k};
      if k < rest then rest else k + 1
  }

  /** A run of orderly events, none of them a publication, with a working event in it. */
  predicate Advances(s: State, es: seq<Event>) {
    Legal(s, es) && AllOrderly(s, es) && NothingSubmitted(es) && Worked(s, es) >= 1
  }

  lemma AdvancesAtOnce(s: State, e: Event)
    requires Enabled(s, e) && Orderly(s, e) && !e.Submit? && Progress(s, e)
    ensures Advances(s, [e])
  {
    assert [e][1..] == [];
    assert Legal(Apply(s, e), []);
  }

  lemma AdvancesAfter(s: State, e: Event, es: seq<Event>)
    requires Enabled(s, e) && Orderly(s, e) && !e.Submit? && Advances(Apply(s, e), es)
    ensures Advances(s, [e] + es)
  {
    assert ([e] + es)[1..] == es;
  }

  lemma LoadedMoverAdvances(s: State, l: Ledger) returns (es: seq<Event>)
    requires Inv(s, l) && s.mover.Loaded?
    ensures Advances(s, es)
  {
    var order := Enumeration(s.mover.snapshot.Keys);
    AdvancesAtOnce(s, Move(order));
    es := [Move(order)];
  }

  lemma BusyMoverAdvances(s: State, l: Ledger) returns (es: seq<Event>)
    requires Inv(s, l) && !s.mover.Idle?
    ensures Advances(s, es)
  {
    if s.mover.Loaded? {
      es := LoadedMoverAdvances(s, l);
    } else {
      SnapshotKeepsExact(s, l);
      StepKeeps(s, Snapshot, l);
      es := LoadedMoverAdvances(Apply(s, Snapshot), Next(s, Snapshot, l));
      AdvancesAfter(s, Snapshot, es);
      es := [Snapshot] + es;
    }
  }

  lemma HandAdvances(s: State, l: Ledger, key: nat) returns (es: seq<Event>)
    requires Inv(s, l) && s.mover.Idle? && key in s.hands && Holds(s.hands[key]).Some?
    ensures Advances(s, es)
  {
    match s.hands[key]
    case Filing(_) =>
      AdvancesAtOnce(s, File(key));
      es := [File(key)];
    case Filed(_, _) =>
      AdvancesAtOnce(s, Enqueue(key));
      es := [Enqueue(key)];
    case Popped(_) =>
      AdvancesAtOnce(s, Load(key));
      es := [Load(key)];
    case Delivering(d) =>
      if d.stage.Running? {
        var to := if s.clock < d.deadline then d.deadline else s.clock;
        AdvancesAtOnce(Apply(s, Advance(to)), Deliver(key, Deliveries.Deadline));
        AdvancesAfter(s, Advance(to), [Deliver(key, Deliveries.Deadline)]);
        es := [Advance(to)] + [Deliver(key, Deliveries.Deadline)];
      } else {
        var event := match d.stage
          case Starting => Deliveries.Begin
          case Saving => Deliveries.Save
          case Storing => Deliveries.StoreRetry
          case _ => Deliveries.PushRetry;
        AdvancesAtOnce(s, Deliver(key, event));
        es := [Deliver(key, event)];
      }
  }

  lemma DueAdvances(s: State, l: Ledger, id: Id) returns (es: seq<Event>)
    requires Inv(s, l) && s.mover.Idle? && id in s.db.delayed && s.db.delayed[id] <= Second(s.clock)
    ensures Advances(s, es)
  {
    assert AccountOk(s, id, l[id]);
    assert id in InRange(s.db.delayed, s.clock);
    StepKeeps(s, Range(s.clock), l);
    es := BusyMoverAdvances(Apply(s, Range(s.clock)), l);
    AdvancesAfter(s, Range(s.clock), es);
    es := [Range(s.clock)] + es;
  }

  lemma DelayedAdvances(s: State, l: Ledger, id: Id) returns (es: seq<Event>)
    requires Inv(s, l) && s.mover.Idle? && id in s.db.delayed
    ensures Advances(s, es)
  {
    var eta := s.db.delayed[id] * 1_000_000_000;
    var to := if s.clock < eta then eta else s.clock;
    StepKeeps(s, Advance(to), l);
    es := DueAdvances(Apply(s, Advance(to)), l, id);
    AdvancesAfter(s, Advance(to), es);
    es := [Advance(to)] + es;
  }

  /** No reachable state is stuck: as long as some id is unsettled, a few orderly events bring one forward. */
  lemma NeverStuck(s: State, l: Ledger, id: Id) returns (es: seq<Event>)
    requires Inv(s, l) && id in s.published && id !in s.settled
    ensures Advances(s, es)
  {
    assert AccountOk(s, id, l[id]);
    if !s.mover.Idle? {
      es := BusyMoverAdvances(s, l);
    } else {
      match l[id].place
      case Listed =>
        var key := Above(s.hands.Keys);
        AdvancesAtOnce(s, Pop(key));
        es := [Pop(key)];
      case Delayed => es := DelayedAdvances(s, l, id);
      case Held(key) => es := HandAdvances(s, l, key);
    }
  }

  lemma {:induction false} ReplayJoins(s: State, a: seq<Event>, b: seq<Event>)
    requires Legal(s, a) && AllOrderly(s, a) && Legal(Replay(s, a), b) && AllOrderly(Replay(s, a), b)
    ensures Legal(s, a + b) && AllOrderly(s, a + b) && Replay(s, a + b) == Replay(Replay(s, a), b)
    decreases |a|
  {
    if a == [] {
      assert a + b == b;
    } else {
      ReplayJoins(Apply(s, a[0]), a[1..], b);
      assert (a + b)[1..] == a[1..] + b;
    }
  }

  /** From every reachable state the queue can be drained: some orderly run without publications settles every id. */
  lemma CanSettleAll(s: State, l: Ledger) returns (es: seq<Event>)
    requires Inv(s, l)
    ensures Legal(s, es) && AllOrderly(s, es) && NothingSubmitted(es)
    ensures Replay(s, es).settled >= s.published
    decreases Work(s, l)
  {
    if s.published <= s.settled {
      es := [];
    } else {
      var id :| id in s.published && id !in s.settled;
      var first := NeverStuck(s, l, id);
      WorkIsBounded(s, first, l);
      var rest := CanSettleAll(Replay(s, first), LedgerAfter(s, first, l));
      ReplayJoins(s, first, rest);
      PublishedStays(s, first);
      es := first + rest;
    }
  }

  lemma {:induction false} PublishedStays(s: State, es: seq<Event>)
    requires Legal(s, es)
    ensures s.published <= Replay(s, es).published
    decreases |es|
  {
    if es != [] {
      PublishedStays(Apply(s, es[0]), es[1..]);
      assert s.published <= Apply(s, es[0]).published;
    }
  }
}
