/** When delayed ids enter the list: not a second early, and within one tick of the mover. */
module Delays {
  import opened Clock
  import opened Redis
  import opened Protocol
  import opened Accounts
  import opened Safety
  import opened Runs
  import opened Countdown

  /** No id enters the list a full second or more before the ETA it was published for, or before that ETA's second. */
  lemma NeverEarly(s: State, es: seq<Event>, id: Id)
    requires Initial(s) && Legal(s, es) && AllOrderly(s, es) && PublishedFor(es, id).Some?
    requires id in Replay(s, es).db.list
    ensures var eta := PublishedFor(es, id).value;
            eta < Replay(s, es).clock + SECOND && Second(eta) <= Second(Replay(s, es).clock)
  {
    WaitsForItsEta(s, es, id);
  }

  /** A delayed id only leaves the delayed set by a transaction that lists it. */
  lemma LeavesIntoList(s: State, e: Event, l: Ledger, id: Id)
    requires Inv(s, l) && Enabled(s, e) && id in s.db.delayed && id !in Apply(s, e).db.delayed
    ensures e.Move? && id in Apply(s, e).db.list
  {
    if Pushes(s, e).Some? {
      PusherHolds(s, e, l);
    } else if !e.Move? {
      QuietKeepsExact(s, e);
    } else {
      MovedStore(s, e.order, l);
      assert id in InRange(s.db.delayed, s.mover.max);
      assert id in e.order;
    }
  }

  /** The mover holds the id between its first read and its transaction. */
  predicate Caught(s: State, id: Id) {
    match s.mover
    case Idle => false
    case Ranged(_, ids) => id in ids
    case Loaded(_, snapshot) => id in snapshot
  }

  lemma StaysCaught(s: State, e: Event, l: Ledger, id: Id)
    requires Base(s, l) && Caught(s, id) && Enabled(s, e) && !e.Move?
    ensures Caught(Apply(s, e), id)
  {
    if e.Snapshot? {
      SnapshotKeepsExact(s, l);
    } else if Pushes(s, e).Some? {
      PusherHolds(s, e, l);
    } else {
      QuietKeepsExact(s, e);
    }
  }

  lemma {:induction false} RemainsCaught(s: State, es: seq<Event>, l: Ledger, id: Id)
    requires Inv(s, l) && Caught(s, id) && Legal(s, es) && AllOrderly(s, es)
    requires forall i :: 0 <= i < |es| ==> !es[i].Move?
    ensures Caught(Replay(s, es), id)
    decreases |es|
  {
    if es != [] {
      StepKeeps(s, es[0], l);
      StaysCaught(s, es[0], l, id);
      RemainsCaught(Apply(s, es[0]), es[1..], Next(s, es[0], l), id);
    }
  }

  /** A range read catches every id due by its `max`. */
  lemma RangeCatches(s: State, l: Ledger, max: Time, id: Id)
    requires Base(s, l) && Enabled(s, Range(max))
    requires id in s.db.delayed && s.db.delayed[id] <= Second(max)
    ensures Caught(Apply(s, Range(max)), id)
  {
    assert AccountOk(s, id, l[id]);
    assert id in InRange(s.db.delayed, max);
  }

  /** A transaction lists what the mover has caught, and takes it off the delayed set. */
  lemma MoveListsCaught(s: State, l: Ledger, order: seq<Id>, id: Id)
    requires Inv(s, l) && Enabled(s, Move(order)) && Caught(s, id)
    ensures id in Apply(s, Move(order)).db.list && id !in Apply(s, Move(order)).db.delayed
  {
    MovedStore(s, order, l);
    assert id in order && id in InRange(s.db.delayed, s.mover.max);
  }

  /**
   Every tick at or after the ETA catches the id: a range read with such a `max` sees it, and whatever happens before
   the tick's transaction, the transaction lists it.
   */
  lemma TickListsDue(s: State, l: Ledger, max: Time, es: seq<Event>, order: seq<Id>, id: Id, eta: Time)
    requires Inv(s, l) && id in s.db.delayed && Second(eta) == s.db.delayed[id]
    requires Enabled(s, Range(max)) && eta <= max
    requires Legal(Apply(s, Range(max)), es) && AllOrderly(Apply(s, Range(max)), es)
    requires forall i :: 0 <= i < |es| ==> !es[i].Move?
    requires Enabled(Replay(Apply(s, Range(max)), es), Move(order))
    ensures var s' := Apply(Replay(Apply(s, Range(max)), es), Move(order));
            id in s'.db.list && id !in s'.db.delayed
  {
    RangeCatches(s, l, max, id);
    StepKeeps(s, Range(max), l);
    RunListsCaught(Apply(s, Range(max)), Next(s, Range(max), l), es, order, id);
  }

  lemma RunListsCaught(s: State, l: Ledger, es: seq<Event>, order: seq<Id>, id: Id)
    requires Inv(s, l) && Caught(s, id) && Legal(s, es) && AllOrderly(s, es)
    requires forall i :: 0 <= i < |es| ==> !es[i].Move?
    requires Enabled(Replay(s, es), Move(order))
    ensures var s' := Apply(Replay(s, es), Move(order)); id in s'.db.list && id !in s'.db.delayed
  {
    RemainsCaught(s, es, l, id);
    MoveListsCaught(Replay(s, es), LedgerAfter(s, es, l), order, id);
  }

  // With ticks at most a period apart

  /** The last tick's clock reading. */
  function LastTick(e: Event, last: Time): Time {
    if e.Range? then e.max else last
  }

  /** Ticks read the clock as it is, they are at most a period apart, and ZADDs are prompt. */
  predicate Paced(s: State, es: seq<Event>, last: Time, period: Time)
    requires Legal(s, es)
    decreases |es|
  {
    s.clock <= last + period &&
    (es == [] ||
     (&& (es[0].Range? ==> es[0].max == s.clock) && Prompt(s, es[0])
      && Paced(Apply(s, es[0]), es[1..], LastTick(es[0], last), period)))
  }

  /** Whatever is delayed and not in the mover's hands is due after the last tick. */
  predicate AheadOfTicks(s: State, last: Time) {
    && last <= s.clock
    && forall id :: id in s.db.delayed && !Caught(s, id) ==> s.db.delayed[id] > Second(last)
  }

  lemma StaysAhead(s: State, e: Event, l: Ledger, last: Time)
    requires Inv(s, l) && AheadOfTicks(s, last) && Enabled(s, e) && Orderly(s, e) && Prompt(s, e)
    requires e.Range? ==> e.max == s.clock
    ensures AheadOfTicks(Apply(s, e), LastTick(e, last))
  {
    if e.Move? {
      MoveStaysAhead(s, e.order, l, last);
    } else if Pushes(s, e).Some? {
      PusherHolds(s, e, l);
      PushStaysAhead(s, Apply(s, e), Runs.Pushed(s, e), Pushes(s, e).value, last);
    } else if e.Range? {
      RangeStaysAhead(s, l);
    } else {
      QuietStaysAhead(s, e, l, last);
    }
  }

  lemma PushStaysAhead(s: State, s': State, x: Id, dest: Dest, last: Time)
    requires AheadOfTicks(s, last) && s'.clock == s.clock && s'.mover == s.mover && s'.db == Push(s.db, x, dest)
    requires dest.At? ==> dest.score > Second(s.clock)
    ensures AheadOfTicks(s', last)
  {
  }

  lemma MoveStaysAhead(s: State, order: seq<Id>, l: Ledger, last: Time)
    requires Inv(s, l) && AheadOfTicks(s, last) && Enabled(s, Move(order))
    ensures AheadOfTicks(Apply(s, Move(order)), last)
  {
    MovedStore(s, order, l);
    var s' := Apply(s, Move(order));
    forall id | id in s'.db.delayed ensures s'.db.delayed[id] > Second(last) {
      assert id !in InRange(s.db.delayed, s.mover.max);
    }
  }

  lemma RangeStaysAhead(s: State, l: Ledger)
    requires Base(s, l) && Enabled(s, Range(s.clock))
    ensures AheadOfTicks(Apply(s, Range(s.clock)), s.clock)
  {
    var s' := Apply(s, Range(s.clock));
    forall id | id in s'.db.delayed && !Caught(s', id) ensures s'.db.delayed[id] > Second(s.clock) {
      assert AccountOk(s, id, l[id]);
      assert id !in InRange(s.db.delayed, s.clock);
    }
  }

  lemma QuietStaysAhead(s: State, e: Event, l: Ledger, last: Time)
    requires Base(s, l) && AheadOfTicks(s, last) && Enabled(s, e) && Pushes(s, e).None? && !e.Move? && !e.Range?
    ensures AheadOfTicks(Apply(s, e), last)
  {
    QuietKeepsExact(s, e);
    ClockAdvances(s, e);
    forall id | Caught(s, id) ensures Caught(Apply(s, e), id) {
      StaysCaught(s, e, l, id);
    }
    StillAhead(s, Apply(s, e), last);
  }

  lemma ClockAdvances(s: State, e: Event)
    requires Enabled(s, e)
    ensures s.clock <= Apply(s, e).clock
  {
  }

  lemma StillAhead(s: State, s': State, last: Time)
    requires AheadOfTicks(s, last) && s.clock <= s'.clock && s'.db.delayed == s.db.delayed
    requires forall id :: Caught(s, id) ==> Caught(s', id)
    ensures AheadOfTicks(s', last)
  {
  }

  /**
   With ticks at most a period apart, an id still delayed and not in the mover's hands is less than a period past its
   ETA: it enters the list within one period after it, plus the time of the transaction that takes it there.
   */
  lemma {:induction false} NeverLate(s: State, es: seq<Event>, l: Ledger, last: Time, period: Time, id: Id, eta: Time)
    requires Inv(s, l) && AheadOfTicks(s, last) && Legal(s, es) && AllOrderly(s, es) && Paced(s, es, last, period)
    requires var s' := Replay(s, es); id in s'.db.delayed && Second(eta) == s'.db.delayed[id] && !Caught(s', id)
    ensures Replay(s, es).clock < eta + period
    decreases |es|
  {
    if es != [] {
      StepKeeps(s, es[0], l);
      StaysAhead(s, es[0], l, last);
      NeverLate(Apply(s, es[0]), es[1..], Next(s, es[0], l), LastTick(es[0], last), period, id, eta);
    }
  }

  /** A queue starts ahead of its ticks. */
  lemma InitiallyAhead(s: State)
    requires Initial(s)
    ensures AheadOfTicks(s, s.clock) && BehindNoTick(s, s.clock)
  {
  }

  /** Whatever is delayed, also in the mover's hands, is due after the tick before the last. */
  predicate BehindNoTick(s: State, earlier: Time) {
    forall id :: id in s.db.delayed ==> s.db.delayed[id] > Second(earlier)
  }

  /** The clock reading of the tick before the last. */
  function EarlierTick(e: Event, last: Time, earlier: Time): Time {
    if e.Range? then last else earlier
  }

  /** The mover reads only when its hands are empty, so all that waits then is due after the last tick. */
  lemma StaysBehindNoTick(s: State, e: Event, l: Ledger, last: Time, earlier: Time)
    requires Inv(s, l) && AheadOfTicks(s, last) && BehindNoTick(s, earlier) && earlier <= last
    requires Enabled(s, e) && Prompt(s, e)
    ensures BehindNoTick(Apply(s, e), EarlierTick(e, last, earlier))
  {
    if e.Move? {
      MovedStore(s, e.order, l);
    } else if Pushes(s, e).Some? {
      PusherHolds(s, e, l);
    } else {
      QuietKeepsExact(s, e);
      if e.Range? {
        forall id | id in s.db.delayed ensures s.db.delayed[id] > Second(last) {
          assert !Caught(s, id);
        }
      }
    }
  }

  lemma {:induction false} DelayedWithinTwoTicks(s: State, es: seq<Event>, l: Ledger, last: Time, earlier: Time,
                                                 period: Time, id: Id, eta: Time)
    requires Inv(s, l) && AheadOfTicks(s, last) && BehindNoTick(s, earlier) && earlier <= last <= earlier + period
    requires Legal(s, es) && AllOrderly(s, es) && Paced(s, es, last, period)
    requires id in Replay(s, es).db.delayed && Second(eta) == Replay(s, es).db.delayed[id]
    ensures Replay(s, es).clock < eta + 2 * period
    decreases |es|
  {
    if es != [] {
      var e := es[0];
      StepKeeps(s, e, l);
      StaysAhead(s, e, l, last);
      StaysBehindNoTick(s, e, l, last, earlier);
      DelayedWithinTwoTicks(Apply(s, e), es[1..], Next(s, e, l), LastTick(e, last), EarlierTick(e, last, earlier),
                            period, id, eta);
    }
  }

  /**
   The delay bound from the empty queue: in a run with ticks at most a period apart, no id is still delayed two periods
   after the ETA it was delayed for, whether the mover has read it or not; it has entered the list before.
   */
  lemma ListedWithinTwoTicks(s: State, es: seq<Event>, period: Time, id: Id, eta: Time)
    requires Initial(s) && Legal(s, es) && AllOrderly(s, es) && Paced(s, es, s.clock, period)
    requires id in Replay(s, es).db.delayed && Second(eta) == Replay(s, es).db.delayed[id]
    ensures Replay(s, es).clock < eta + 2 * period
  {
    InitialInv(s);
    InitiallyAhead(s);
    DelayedWithinTwoTicks(s, es, map[], s.clock, s.clock, period, id, eta);
  }
}
