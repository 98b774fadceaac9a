/**
 One queue served by several processes, each running its own mover over the same delayed set. ZADDs are told apart by
 counting them per id, so that it can be said which of them a mover read, listed and removed.
 */
module Movers {
  import opened Clock
  import opened Redis

  /** A mover between its range read and its transaction: the ZADD it read each id from, and the ids with a hash. */
  datatype Mover = Idle | Ranged(max: Time, read: map<Id, nat>) | Loaded(max: Time, read: map<Id, nat>, found: set<Id>)

  /** A mover listed an id it had read from that id's `nth` ZADD. */
  datatype Listing = Listing(mover: nat, id: Id, nth: nat)

  /**
   `ttls` are the ids whose tasks ask for a TTL: with several movers a task can be listed twice, settle with its TTL,
   and its hash expire while its other copy waits. `overwritten` and `lost` say what became of ZADDs not listed.
   */
  datatype State = State(
    clock: Time,
    delayed: map<Id, int>,
    zadds: map<Id, nat>,
    hashes: set<Id>,
    ttls: set<Id>,
    movers: map<nat, Mover>,
    log: seq<Listing>,
    overwritten: set<(Id, nat)>,
    lost: set<(Id, nat)>)

  datatype Event =
    | Advance(to: Time)
    | Write(id: Id)                      // HMSET, by a publication or a save
    | Expire(id: Id)                     // the hash of a task saved with a TTL goes
    | Zadd(id: Id, score: int)           // by a publisher or by the retry of a delivery, after its HMSET
    | Range(mover: nat)                  // ZRANGEBYSCORE up to the clock's second
    | Snapshot(mover: nat)               // MULTIHGETALL
    | Move(mover: nat, order: seq<Id>)   // MULTI/EXEC: push all, then ZREMRANGEBYSCORE

  function Zadds(s: State, id: Id): nat {
    if id in s.zadds then s.zadds[id] else 0
  }

  predicate Busy(s: State, m: nat) {
    m in s.movers && !s.movers[m].Idle?
  }

  predicate Enabled(s: State, e: Event) {
    match e
    case Advance(to) => to >= s.clock
    case Write(_) => true
    case Expire(id) => id in s.hashes && id in s.ttls
    case Zadd(id, _) => id in s.hashes || id in s.ttls
    case Range(m) => m in s.movers && s.movers[m].Idle?
    case Snapshot(m) => m in s.movers && s.movers[m].Ranged?
    case Move(m, order) =>
      && m in s.movers && s.movers[m].Loaded?
      && (forall i, j :: 0 <= i < j < |order| ==> order[i] != order[j])
      && (forall id :: id in order ==> id in s.movers[m].read && id in s.movers[m].found)
      && (forall id :: id in s.movers[m].found ==> id in order)
  }

  function Listings(m: nat, read: map<Id, nat>, order: seq<Id>): seq<Listing>
    requires forall id :: id in order ==> id in read
  {
    seq(|order|, i requires 0 <= i < |order| => Listing(m, order[i], read[order[i]]))
  }

  function Apply(s: State, e: Event): State
    requires Enabled(s, e)
  {
    match e
    case Advance(to) => s.(clock := to)
    case Write(id) => s.(hashes := s.hashes + {id})
    case Expire(id) => s.(hashes := s.hashes - {id})
    case Zadd(id, score) =>
      s.(delayed := s.delayed[id := score], zadds := s.zadds[id := Zadds(s, id) + 1],
         overwritten := if id in s.delayed then s.overwritten + {(id, Zadds(s, id))} else s.overwritten)
    case Range(m) =>
      var ids := InRange(s.delayed, s.clock);
      var read := map id | id in ids :: Zadds(s, id);
      s.(movers := s.movers[m := if read == map[] then Idle else Ranged(s.clock, read)])
    case Snapshot(m) =>
      var read := s.movers[m].read;
      var found := set id | id in read && id in s.hashes;
      s.(movers := s.movers[m := if found == {} then Idle else Loaded(s.movers[m].max, read, found)])
    case Move(m, order) =>
      var cleared := InRange(s.delayed, s.movers[m].max);
      s.(log := s.log + Listings(m, s.movers[m].read, order),
         delayed := s.delayed - cleared,
         lost := s.lost + (set id | id in cleared && id !in s.movers[m].found :: (id, Zadds(s, id))),
         movers := s.movers[m := Idle])
  }

  /** ZADDs are made before the second of their score. */
  predicate Orderly(s: State, e: Event) {
    e.Zadd? ==> e.score >= 0 && e.score > Second(s.clock)
  }

  predicate Legal(s: State, es: seq<Event>)
    decreases |es|
  {
    es == [] || (Enabled(s, es[0]) && Legal(Apply(s, es[0]), es[1..]))
  }

  predicate AllOrderly(s: State, es: seq<Event>)
    requires Legal(s, es)
    decreases |es|
  {
    es == [] || (Orderly(s, es[0]) && AllOrderly(Apply(s, es[0]), es[1..]))
  }

  function Replay(s: State, es: seq<Event>): State
    requires Legal(s, es)
    decreases |es|
  {
    if es == [] then s else Replay(Apply(s, es[0]), es[1..])
  }

  predicate Initial(s: State) {
    && s.clock >= 0 && s.delayed == map[] && s.zadds == map[] && s.hashes == {} && s.log == []
    && s.overwritten == {} && s.lost == {}
    && forall m :: m in s.movers ==> s.movers[m].Idle?
  }

  // The invariant

  predicate DelayedOk(s: State) {
    forall id :: id in s.delayed ==> s.delayed[id] >= 0 && Zadds(s, id) >= 1 && (id in s.hashes || id in s.ttls)
  }

  /** A mover has not listed the ZADDs it has read, and a current one of them is still in its range or already gone. */
  predicate MoverOk(s: State, m: nat) {
    Busy(s, m) ==>
      && s.movers[m].max <= s.clock
      && (forall id :: id in s.movers[m].read ==>
            && 1 <= s.movers[m].read[id] <= Zadds(s, id)
            && Listing(m, id, s.movers[m].read[id]) !in s.log
            && (id in s.delayed && s.movers[m].read[id] == Zadds(s, id) ==> id in InRange(s.delayed, s.movers[m].max)))
      && (forall id :: id in InRange(s.delayed, s.movers[m].max) ==>
            id in s.movers[m].read && s.movers[m].read[id] == Zadds(s, id))
      && FoundOk(s, m)
  }

  /** The snapshot finds every hash but those that can expire. */
  predicate FoundOk(s: State, m: nat)
    requires Busy(s, m)
  {
    && (forall id :: id in s.movers[m].read ==> id in s.hashes || id in s.ttls)
    && (s.movers[m].Loaded? ==> forall id :: id in s.movers[m].read && id !in s.ttls ==> id in s.movers[m].found)
  }

  /** A listing is of a real mover and a past ZADD, and no listed ZADD is still delayed. */
  predicate ListingOk(s: State, x: Listing) {
    && x.mover in s.movers && 1 <= x.nth <= Zadds(s, x.id)
    && (x.id in s.delayed ==> x.nth < Zadds(s, x.id))
  }

  /** Every ZADD is still delayed, was overwritten by a later one while delayed, was lost, or was listed. */
  predicate Accounted(s: State, id: Id, nth: nat) {
    || (id in s.delayed && nth == Zadds(s, id))
    || (id, nth) in s.overwritten
    || (id, nth) in s.lost
    || exists m :: m in s.movers && Listing(m, id, nth) in s.log
  }

  predicate LogOk(s: State) {
    && (forall i, j :: 0 <= i < j < |s.log| ==> s.log[i] != s.log[j])
    && (forall x :: x in s.log ==> ListingOk(s, x))
    && (forall x :: x in s.lost ==> x.0 in s.ttls)
  }

  ghost predicate AllAccounted(s: State) {
    forall id, nth :: 1 <= nth <= Zadds(s, id) ==> Accounted(s, id, nth)
  }

  ghost predicate Inv(s: State) {
    && s.clock >= 0 && DelayedOk(s) && LogOk(s) && AllAccounted(s)
    && forall m :: m in s.movers ==> MoverOk(s, m)
  }

  lemma ZaddKeeps(s: State, id: Id, score: int)
    requires Inv(s) && Enabled(s, Zadd(id, score)) && Orderly(s, Zadd(id, score))
    ensures Inv(Apply(s, Zadd(id, score)))
  {
    var s' := Apply(s, Zadd(id, score));
    forall x, nth | 1 <= nth <= Zadds(s', x) ensures Accounted(s', x, nth) {
      if x != id || nth <= Zadds(s, x) {
        assert Accounted(s, x, nth);
      }
    }
    forall m | m in s'.movers ensures MoverOk(s', m) {
      assert MoverOk(s, m);
    }
  }

  lemma NotListedYet(s: State, m: nat, id: Id)
    requires LogOk(s) && id in s.delayed
    ensures Listing(m, id, Zadds(s, id)) !in s.log
  {
    assert !ListingOk(s, Listing(m, id, Zadds(s, id)));
  }

  lemma RangeKeepsMovers(s: State, m: nat, m': nat)
    requires Inv(s) && Enabled(s, Range(m)) && m' in s.movers
    ensures MoverOk(Apply(s, Range(m)), m')
  {
    assert MoverOk(s, m');
    if m' == m {
      forall id | id in s.delayed ensures Listing(m, id, Zadds(s, id)) !in s.log {
        NotListedYet(s, m, id);
      }
    }
  }

  lemma RangeKeeps(s: State, m: nat)
    requires Inv(s) && Enabled(s, Range(m))
    ensures Inv(Apply(s, Range(m)))
  {
    var s' := Apply(s, Range(m));
    forall m' | m' in s'.movers ensures MoverOk(s', m') {
      RangeKeepsMovers(s, m, m');
    }
    SameAccounts(s, s');
  }

  lemma SnapshotKeeps(s: State, m: nat)
    requires Inv(s) && Enabled(s, Snapshot(m))
    ensures Inv(Apply(s, Snapshot(m)))
  {
    var s' := Apply(s, Snapshot(m));
    assert MoverOk(s, m);
    forall m' | m' in s'.movers ensures MoverOk(s', m') {
      assert MoverOk(s, m');
    }
    SameAccounts(s, s');
  }

  lemma SameAccounts(s: State, s': State)
    requires LogOk(s) && AllAccounted(s)
    requires s'.delayed == s.delayed && s'.zadds == s.zadds && s'.log == s.log && s'.overwritten == s.overwritten
    requires s'.lost == s.lost && s'.ttls == s.ttls
    requires s'.movers.Keys == s.movers.Keys
    ensures LogOk(s') && AllAccounted(s')
  {
    forall id, nth | 1 <= nth <= Zadds(s', id) ensures Accounted(s', id, nth) {
      assert Accounted(s, id, nth);
    }
  }

  /** A transaction removes no ZADD later than the one the mover read, and lists it unless its hash was gone. */
  lemma MoveRemovesWhatItRead(s: State, m: nat, order: seq<Id>)
    requires Inv(s) && Enabled(s, Move(m, order))
    ensures forall id :: id in s.delayed && id !in Apply(s, Move(m, order)).delayed ==>
              && id in s.movers[m].read && s.movers[m].read[id] == Zadds(s, id)
              && if id in order then Listing(m, id, Zadds(s, id)) in Apply(s, Move(m, order)).log
                 else id in s.ttls && (id, Zadds(s, id)) in Apply(s, Move(m, order)).lost
    ensures forall id :: id in order && id in Apply(s, Move(m, order)).delayed ==> s.movers[m].read[id] < Zadds(s, id)
  {
    assert MoverOk(s, m);
    var listings := Listings(m, s.movers[m].read, order);
    forall id | id in s.delayed && id !in Apply(s, Move(m, order)).delayed
      ensures && id in s.movers[m].read && s.movers[m].read[id] == Zadds(s, id)
              && if id in order then Listing(m, id, Zadds(s, id)) in Apply(s, Move(m, order)).log
                 else id in s.ttls && (id, Zadds(s, id)) in Apply(s, Move(m, order)).lost
    {
      assert id in InRange(s.delayed, s.movers[m].max);
      if id in order {
        var i :| 0 <= i < |order| && order[i] == id;
        assert listings[i] == Listing(m, id, Zadds(s, id));
      }
    }
  }

  lemma MoveKeepsLog(s: State, m: nat, order: seq<Id>)
    requires Inv(s) && Enabled(s, Move(m, order))
    ensures LogOk(Apply(s, Move(m, order)))
  {
    MoveRemovesWhatItRead(s, m, order);
    assert MoverOk(s, m);
    var s' := Apply(s, Move(m, order));
    var listings := Listings(m, s.movers[m].read, order);
    assert forall i :: 0 <= i < |listings| ==> listings[i] !in s.log;
    forall x | x in s'.log ensures ListingOk(s', x) {
      if x in s.log {
        assert ListingOk(s, x);
      } else {
        assert x in listings;
      }
    }
  }

  lemma MoveKeepsAccounts(s: State, m: nat, order: seq<Id>)
    requires Inv(s) && Enabled(s, Move(m, order))
    ensures AllAccounted(Apply(s, Move(m, order)))
  {
    MoveRemovesWhatItRead(s, m, order);
    var s' := Apply(s, Move(m, order));
    forall id, nth | 1 <= nth <= Zadds(s', id) ensures Accounted(s', id, nth) {
      assert Accounted(s, id, nth);
      if m' :| m' in s.movers && Listing(m', id, nth) in s.log {
        assert Listing(m', id, nth) in s'.log;
      }
    }
  }

  lemma OthersListings(s: State, m: nat, order: seq<Id>, m': nat, id: Id, nth: nat)
    requires Enabled(s, Move(m, order)) && m' != m
    ensures Listing(m', id, nth) in Apply(s, Move(m, order)).log <==> Listing(m', id, nth) in s.log
  {
    var listings := Listings(m, s.movers[m].read, order);
    assert forall i :: 0 <= i < |listings| ==> listings[i].mover == m;
  }

  lemma MoveKeepsMovers(s: State, m: nat, order: seq<Id>, m': nat)
    requires Inv(s) && Enabled(s, Move(m, order)) && m' in s.movers
    ensures MoverOk(Apply(s, Move(m, order)), m')
  {
    assert MoverOk(s, m');
    if m' != m && Busy(s, m') {
      forall id | id in s.movers[m'].read
        ensures Listing(m', id, s.movers[m'].read[id]) !in Apply(s, Move(m, order)).log
      {
        OthersListings(s, m, order, m', id, s.movers[m'].read[id]);
      }
    }
  }

  lemma QuietKeeps(s: State, e: Event)
    requires Inv(s) && Enabled(s, e) && (e.Advance? || e.Write? || e.Expire?)
    ensures Inv(Apply(s, e))
  {
    SameAccounts(s, Apply(s, e));
    forall m | m in s.movers ensures MoverOk(Apply(s, e), m) {
      assert MoverOk(s, m);
    }
  }

  lemma StepKeeps(s: State, e: Event)
    requires Inv(s) && Enabled(s, e) && Orderly(s, e)
    ensures Inv(Apply(s, e))
  {
    match e
    case Advance(_) => QuietKeeps(s, e);
    case Write(_) => QuietKeeps(s, e);
    case Expire(_) => QuietKeeps(s, e);
    case Zadd(id, score) => ZaddKeeps(s, id, score);
    case Range(m) => RangeKeeps(s, m);
    case Snapshot(m) => SnapshotKeeps(s, m);
    case Move(m, order) =>
      MoveKeepsLog(s, m, order);
      MoveKeepsAccounts(s, m, order);
      forall m' | m' in s.movers ensures MoverOk(Apply(s, e), m') {
        MoveKeepsMovers(s, m, order, m');
      }
  }

  lemma {:induction false} RunKeeps(s: State, es: seq<Event>)
    requires Inv(s) && Legal(s, es) && AllOrderly(s, es)
    ensures Inv(Replay(s, es)) && Replay(s, es).movers.Keys == s.movers.Keys && Replay(s, es).ttls == s.ttls
    decreases |es|
  {
    if es != [] {
      StepKeeps(s, es[0]);
      RunKeeps(Apply(s, es[0]), es[1..]);
    }
  }

  // The run-level theorems

  /** How often the `nth` ZADD of `id` was listed. */
  function TimesListed(log: seq<Listing>, id: Id, nth: nat): nat {
    if log == [] then 0
    else
      var last := log[|log| - 1];
      TimesListed(log[..|log| - 1], id, nth) + (if last.id == id && last.nth == nth then 1 else 0)
  }

  function ListedBy(log: seq<Listing>, id: Id, nth: nat): set<nat> {
    set x | x in log && x.id == id && x.nth == nth :: x.mover
  }

  lemma OneMoreLister(init: seq<Listing>, last: Listing, id: Id, nth: nat)
    requires last !in init
    ensures ListedBy(init + [last], id, nth) ==
            ListedBy(init, id, nth) + if last.id == id && last.nth == nth then {last.mover} else {}
    ensures last.id == id && last.nth == nth ==> last.mover !in ListedBy(init, id, nth)
  {
    forall m ensures m in ListedBy(init + [last], id, nth) <==> Listing(m, id, nth) in init + [last] {
      assert m in ListedBy(init + [last], id, nth) <== Listing(m, id, nth) in init + [last];
    }
    forall m ensures m in ListedBy(init, id, nth) <==> Listing(m, id, nth) in init {
      assert m in ListedBy(init, id, nth) <== Listing(m, id, nth) in init;
    }
  }

  lemma {:induction false} ListedOncePerMover(log: seq<Listing>, id: Id, nth: nat)
    requires forall i, j :: 0 <= i < j < |log| ==> log[i] != log[j]
    ensures TimesListed(log, id, nth) == |ListedBy(log, id, nth)|
  {
    if log != [] {
      var init, last := log[..|log| - 1], log[|log| - 1];
      ListedOncePerMover(init, id, nth);
      assert log == init + [last];
      OneMoreLister(init, last, id, nth);
    }
  }

  lemma WithinSize(a: set<nat>, b: set<nat>)
    requires a <= b
    ensures |a| <= |b|
  {
    assert b == a + (b - a);
  }

  /**
   With k movers, in every state an orderly run reaches: each ZADD of an id has been listed at most k times; and once
   it is no longer delayed it has been listed at least once, unless a later ZADD of the id overwrote it while it was, or
   the task asks for a TTL and its hash had expired.
   */
  lemma BetweenOneAndK(s: State, es: seq<Event>, id: Id, nth: nat)
    requires Initial(s) && Legal(s, es) && AllOrderly(s, es)
    requires 1 <= nth <= Zadds(Replay(s, es), id)
    ensures var s' := Replay(s, es);
            && TimesListed(s'.log, id, nth) <= |s.movers|
            && ((id !in s'.delayed || nth != Zadds(s', id)) && (id, nth) !in s'.overwritten && (id, nth) !in s'.lost ==>
                  TimesListed(s'.log, id, nth) >= 1)
            && ((id, nth) in s'.lost ==> id in s.ttls)
            && (id in s'.delayed && nth == Zadds(s', id) ==> TimesListed(s'.log, id, nth) == 0)
  {
    RunKeeps(s, es);
    var s' := Replay(s, es);
    var listers := ListedBy(s'.log, id, nth);
    ListedOncePerMover(s'.log, id, nth);
    forall m | m in listers ensures m in s'.movers && ListingOk(s', Listing(m, id, nth)) {
      assert Listing(m, id, nth) in s'.log;
    }
    WithinSize(listers, s.movers.Keys);
    assert Accounted(s', id, nth);
    if m :| m in s'.movers && Listing(m, id, nth) in s'.log {
      assert m in listers;
    }
    if listers != {} {
      var m :| m in listers;
      assert ListingOk(s', Listing(m, id, nth));
    }
  }

  /** A stale mover removes no ZADD made after its read: whatever it removes it read, and lists. */
  lemma StaleMoverSpares(s: State, es: seq<Event>, m: nat, order: seq<Id>, id: Id)
    requires Initial(s) && Legal(s, es) && AllOrderly(s, es) && Enabled(Replay(s, es), Move(m, order))
    requires id in Replay(s, es).delayed && id in order
    ensures var s1 := Replay(s, es);
            id in Apply(s1, Move(m, order)).delayed <==> s1.movers[m].read[id] < Zadds(s1, id)
  {
    RunKeeps(s, es);
    MoveRemovesWhatItRead(Replay(s, es), m, order);
  }

  /** If a hash is missing at the snapshot and another is not, the transaction removes the id without listing it. */
  lemma MissingHashIsLost(s: State, m: nat, order: seq<Id>, id: Id)
    requires Inv(s) && Enabled(s, Snapshot(m)) && id in s.movers[m].read && id in s.delayed
    requires s.movers[m].read[id] == Zadds(s, id)
    requires Enabled(Apply(s, Snapshot(m)), Move(m, order))
    ensures var s' := Apply(Apply(s, Snapshot(m)), Move(m, order));
            && id !in s'.delayed
            && ((forall x :: x in s'.log && x !in s.log ==> x.id != id) <==> id !in s.hashes)
  {
    assert MoverOk(s, m);
    var s1 := Apply(s, Snapshot(m));
    var listings := Listings(m, s1.movers[m].read, order);
    if id in s.hashes {
      assert id in s1.movers[m].found;
      var i :| 0 <= i < |order| && order[i] == id;
      assert listings[i] == Listing(m, id, s.movers[m].read[id]);
      assert listings[i] in Apply(s1, Move(m, order)).log && listings[i] !in s.log;
    } else {
      assert forall x :: x in listings ==> x.id in order;
    }
  }
}
