/** Where the protocol does lose a task: runs and steps outside the conditions of the conservation theorems. */
module Losses {
  import opened Clock
  import opened Wrappers
  import opened Tasks
  import opened CodecLaws
  import opened Redis
  import opened Protocol
  import opened Accounts
  import opened Conservation
  import opened Runs
  import opened Timeliness

  // A ZADD into the mover's second

  const DUE: Time := 10_000_000_000
  const FILED: Time := 10_200_000_000
  const TICK: Time := 10_300_000_000
  const SOON: Time := 10_500_000_000

  /** A task with a payload, no retries, and an ETA. */
  function Task(id: Id, eta: Time): TaskValue {
    TaskValue(id, "queue", 0, ZERO_TIME, ZERO_TIME, WAITING, WAITING, 0, Text("payload"), Null, Stored(Null), 0, 0, eta,
              [])
  }

  /** Its hash; both ETAs fall into the tenth second. */
  const HASH_A: Cell<TaskValue> := Cell(Task("a", DUE), None)
  const HASH_B: Cell<TaskValue> := Cell(Task("b", DUE), None)

  /**
   The run: `a` is published and delayed; `b`, due at 10.5 s, is filed at 10.2 s; the mover reads at 10.3 s; `b` is
   pushed; the mover moves.
   */
  function StateAt(i: nat): State
    requires i <= 11
  {
    var none: Db := Store([], map[], map[]);
    var a: Db := Store([], map[], map["a" := HASH_A]);
    var delayed: Db := Store([], map["a" := 10], map["a" := HASH_A]);
    var both: Db := Store([], map["a" := 10], map["a" := HASH_A, "b" := HASH_B]);
    var b := map[1 := Hand.Filed(Task("b", SOON), At(10))];
    match i
    case 0 => State(0, none, Idle, map[], map[], {}, {})
    case 1 => State(0, none, Idle, map[0 := Filing(Task("a", DUE))], map[], {"a"}, {})
    case 2 => State(0, a, Idle, map[0 := Hand.Filed(Task("a", DUE), At(10))], map[], {"a"}, {})
    case 3 => State(0, delayed, Idle, map[], map[], {"a"}, {})
    case 4 => State(FILED, delayed, Idle, map[], map[], {"a"}, {})
    case 5 => State(FILED, delayed, Idle, map[1 := Filing(Task("b", SOON))], map[], {"a", "b"}, {})
    case 6 => State(FILED, both, Idle, b, map[], {"a", "b"}, {})
    case 7 => State(TICK, both, Idle, b, map[], {"a", "b"}, {})
    case 8 => State(TICK, both, Ranged(TICK, {"a"}), b, map[], {"a", "b"}, {})
    case 9 => State(TICK, both, Loaded(TICK, map["a" := HASH_A.content]), b, map[], {"a", "b"}, {})
    case 10 => State(TICK, both.(delayed := map["a" := 10, "b" := 10]), Loaded(TICK, map["a" := HASH_A.content]), map[],
                     map[], {"a", "b"}, {})
    case _ => State(TICK, both.(list := ["a"], delayed := map[]), Idle, map[], map[], {"a", "b"}, {})
  }

  const LOSING: seq<Event> := [
    Submit(0, Task("a", DUE)), File(0), Enqueue(0), Advance(FILED), Submit(1, Task("b", SOON)), File(1), Advance(TICK),
    Range(TICK), Snapshot, Enqueue(1), Move(["a"])]

  lemma FiledHashes()
    ensures Merged(BLANK, Task("a", DUE)) == HASH_A.content && Merged(BLANK, Task("b", SOON)) == HASH_B.content
  {
    assert Floor(DUE) == DUE && Floor(SOON) == DUE && Floor(0) == 0;
  }

  lemma PublishingSteps(i: nat)
    requires i < 7
    ensures Enabled(StateAt(i), LOSING[i]) && Apply(StateAt(i), LOSING[i]) == StateAt(i + 1)
  {
    FiledHashes();
  }

  lemma RangeStep()
    ensures Enabled(StateAt(7), LOSING[7]) && Apply(StateAt(7), LOSING[7]) == StateAt(8)
  {
    assert InRange(StateAt(7).db.delayed, TICK) == {"a"};
  }

  lemma SnapshotStep()
    ensures Enabled(StateAt(8), LOSING[8]) && Apply(StateAt(8), LOSING[8]) == StateAt(9)
  {
    var s := StateAt(8);
    var snapshot := map id | id in s.mover.ids && Visible(s.db, id, s.clock) :: s.db.hashes[id].content;
    assert "a" in snapshot;
    assert snapshot == map["a" := HASH_A.content];
  }

  lemma LatePush()
    ensures Enabled(StateAt(9), LOSING[9]) && Apply(StateAt(9), LOSING[9]) == StateAt(10)
  {
  }

  lemma LosingMove()
    ensures Enabled(StateAt(10), LOSING[10]) && Apply(StateAt(10), LOSING[10]) == StateAt(11)
  {
    var db, snapshot := StateAt(10).db, map["a" := HASH_A.content];
    assert InRange(db.delayed, TICK) == {"a", "b"};
    assert WrittenBack(db, "a", HASH_A.content, TICK) == HASH_A;
    var moved := Moved(db, TICK, snapshot, ["a"], TICK);
    assert moved.list == ["a"];
    assert moved.delayed == map[];
    assert moved.hashes == db.hashes;
  }

  lemma {:induction false} LosingFrom(i: nat)
    requires i <= 11
    ensures Legal(StateAt(i), LOSING[i..]) && Replay(StateAt(i), LOSING[i..]) == StateAt(11)
    decreases 11 - i
  {
    if i < 11 {
      if i < 7 {
        PublishingSteps(i);
      } else if i == 7 {
        RangeStep();
      } else if i == 8 {
        SnapshotStep();
      } else if i == 9 {
        LatePush();
      } else {
        LosingMove();
      }
      LosingFrom(i + 1);
      assert LOSING[i..][1..] == LOSING[i + 1..];
    }
  }

  /** The loss is reachable: a run from the empty queue after which a published id is nowhere. */
  lemma PublishedIdIsLost()
    ensures Initial(StateAt(0)) && Legal(StateAt(0), LOSING)
    ensures "b" in Replay(StateAt(0), LOSING).published && Places(Replay(StateAt(0), LOSING), "b") == 0
  {
    LosingFrom(0);
    assert LOSING[0..] == LOSING;
    assert Holders(StateAt(11), "b") == {};
  }

  // An expiry on a waiting task

  /**
   In every state an orderly run reaches, the save of a `Cancel` keeps a waiting id's hash from expiring exactly unless
   the task it loaded was waiting for its last retry and asks for a TTL.
   */
  lemma CancelKeepsReference(s0: State, es: seq<Event>, key: nat, id: Id)
    requires Initial(s0) && Legal(s0, es) && AllOrderly(s0, es) && Enabled(Replay(s0, es), CancelSave(key))
    requires var s := Replay(s0, es);
             s.cancels[key].id == id && (id in s.db.list || id in s.db.delayed ||
                                         exists k :: k in s.hands && s.hands[k] == Popped(id))
    ensures var s := Replay(s0, es);
            var c := s.cancels[key];
            Kept(Apply(s, CancelSave(key)), id) <==>
            !(c.oldStatus == FAILED && c.maxRetries == 0 && WholeSeconds(c.ttl) != 0)
  {
    InitialInv(s0);
    RunTimely(s0, es, map[]);
    CancelExpires(Replay(s0, es), key, LedgerAfter(s0, es, map[]), id);
  }

  lemma CancelExpires(s: State, key: nat, l: Ledger, id: Id)
    requires Inv(s, l) && AllTimely(s, l) && Enabled(s, CancelSave(key)) && s.cancels[key].id == id
    requires id in s.db.list || id in s.db.delayed || exists k :: k in s.hands && s.hands[k] == Popped(id)
    ensures var c := s.cancels[key];
            Kept(Apply(s, CancelSave(key)), id) <==>
            !(c.oldStatus == FAILED && c.maxRetries == 0 && WholeSeconds(c.ttl) != 0)
  {
    if k :| k in s.hands && s.hands[k] == Popped(id) {
      assert Protocol.Holds(s.hands[k]) == Some(id);
    }
    assert id in l && AccountOk(s, id, l[id]) && Timely(s, id, l[id]);
    CancelOfLastRetry(s.cancels[key]);
  }

  /** A task waiting for its last retry counts as finished, so a `Cancel` then does ask for its TTL. */
  lemma CancelOfLastRetry(t: TaskValue)
    requires t.status == CANCELED && t.oldStatus != SUCCEEDED
    ensures Ttl(t).Some? <==> t.oldStatus == FAILED && t.maxRetries == 0 && WholeSeconds(t.ttl) != 0
  {
  }

  /** A popped id whose hash has expired is dropped without being settled: it is nowhere. */
  lemma ExpiredIsLost(s: State, key: nat, id: Id)
    requires key in s.hands && s.hands[key] == Popped(id) && Places(s, id) == 1
    requires id in s.db.hashes ==> s.db.hashes[id].content.id == id
    ensures Places(Apply(s, Load(key)), id) == 0 <==> Loadable(s.db, id, s.clock).None?
  {
    var s' := Apply(s, Load(key));
    assert key in Holders(s, id);
    assert |Holders(s, id)| >= 1;
    assert Holders(s, id) == {key} by {
      OneElement(Holders(s, id), key);
    }
    forall k
      ensures k in Holders(s', id) <==> k == key && key in s'.hands && Protocol.Holds(s'.hands[key]) == Some(id)
    {
      assert k != key ==> (k in s'.hands <==> k in s.hands) && (k in s.hands ==> s'.hands[k] == s.hands[k]);
      assert k in Holders(s, id) ==> k == key;
    }
    if Loadable(s.db, id, s.clock).None? {
      assert Holders(s', id) == {};
    } else if Loadable(s.db, id, s.clock).value.status != CANCELED {
      assert Holders(s', id) == {key};
    }
  }

  lemma OneElement(ks: set<nat>, key: nat)
    requires key in ks && |ks| <= 1
    ensures ks == {key}
  {
    assert ks == {key} + (ks - {key});
    assert |ks - {key}| == 0;
  }
}
