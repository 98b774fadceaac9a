/**
 The broker refines the protocol: what its commands do to a queue whose hashes are maps of text is what the protocol's
 steps do to the tasks those hashes load as.
 */
module Refinement {
  import opened Clock
  import opened Wrappers
  import opened Tasks
  import opened Codec
  import opened CodecLaws
  import opened Redis
  import opened Broker
  import Protocol

  predicate AllText(data: Data) {
    forall f :: f in data ==> data[f].Str?
  }

  /** The hash is text that loads as the task, with no key that reads as unset. */
  predicate LoadsAs(data: Data, t: TaskValue, ser: Serializer) {
    Decode(data, ser) == Ok(t) && AllText(data) && Tidy(data, t) && t.payload != Null
  }

  predicate CellLoadsAs(c: Cell<Data>, d: Cell<TaskValue>, ser: Serializer) {
    c.expires == d.expires && LoadsAs(c.content, d.content, ser)
  }

  function Loading(ser: Serializer): (Cell<Data>, Cell<TaskValue>) -> bool {
    (c, d) => CellLoadsAs(c, d, ser)
  }

  /** The same list and delayed set, and hashes under the same ids that are related one by one. */
  predicate Related<H, K>(a: Store<H>, b: Store<K>, rel: (Cell<H>, Cell<K>) -> bool) {
    && a.list == b.list && a.delayed == b.delayed && a.hashes.Keys == b.hashes.Keys
    && forall id :: id in a.hashes ==> rel(a.hashes[id], b.hashes[id])
  }

  predicate Represents(st: Store<Data>, db: Protocol.Db, ser: Serializer) {
    Related(st, db, Loading(ser))
  }

  /** A task the codec can write whose set times do not fall into the first second of year 1. */
  predicate Writable(t: TaskValue, ser: Serializer) {
    && Dumpable(t, ser) && Representable(t) && t.payload != Null
    && (t.eta != ZERO_TIME ==> Floor(t.eta) != ZERO_TIME)
    && (t.startedAt != ZERO_TIME ==> Floor(t.startedAt) != ZERO_TIME)
    && (t.processedAt != ZERO_TIME ==> Floor(t.processedAt) != ZERO_TIME)
  }

  lemma SavedLoads(h: Data, o: TaskValue, t: TaskValue, ser: Serializer)
    requires ser.Lawful() && Writable(t, ser)
    requires LoadsAs(h, o, ser) || (h == map[] && o == BLANK)
    ensures LoadsAs(h + Wire(Encode(t, ser)), Merged(o, t), ser)
  {
    LoadAfterSave(h, o, t, ser);
    SaveKeepsTidy(h, o, t, ser);
  }

  /** A hash that loads is not empty. */
  lemma LoadsNonEmpty(data: Data, t: TaskValue, ser: Serializer)
    requires LoadsAs(data, t, ser)
    ensures data != map[] && PayloadId(data) == Some(t.id)
  {
    assert MapString(data, Field.Id, false) == Ok(t.id);
  }

  /** What a reader of the hash gets on both sides. */
  lemma ContentsAgree(st: Store<Data>, db: Protocol.Db, id: Id, now: Time, ser: Serializer)
    requires Represents(st, db, ser)
    ensures Content(st, id, now).Some? <==> Content(db, id, now).Some?
    ensures Content(st, id, now).Some? ==> LoadsAs(Content(st, id, now).value, Content(db, id, now).value, ser)
  {
    if id in st.hashes {
      assert CellLoadsAs(st.hashes[id], db.hashes[id], ser);
    }
  }

  lemma FilledLoads(st: Store<Data>, db: Protocol.Db, t: TaskValue, ttl: Option<int>, now: Time, ser: Serializer)
    requires ser.Lawful() && Represents(st, db, ser) && Writable(t, ser)
    ensures CellLoadsAs(Filled(st, t.id, Encode(t, ser), ttl, now).hashes[t.id],
                        Protocol.Saved(db, t, ttl, now).hashes[t.id], ser)
  {
    ContentsAgree(st, db, t.id, now, ser);
    ExpiriesAgree(st, db, t.id, now, ser);
    var h, o := Content(st, t.id, now), Content(db, t.id, now);
    SavedLoads(if h.Some? then h.value else map[], if o.Some? then o.value else BLANK, t, ser);
  }

  lemma ExpiriesAgree(st: Store<Data>, db: Protocol.Db, id: Id, now: Time, ser: Serializer)
    requires Represents(st, db, ser)
    ensures Visible(st, id, now) <==> Visible(db, id, now)
    ensures Visible(st, id, now) ==> st.hashes[id].expires == db.hashes[id].expires
  {
    if id in st.hashes {
      assert CellLoadsAs(st.hashes[id], db.hashes[id], ser);
    }
  }

  lemma RelatedWith<H, K>(a: Store<H>, b: Store<K>, rel: (Cell<H>, Cell<K>) -> bool, id: Id, c: Cell<H>, d: Cell<K>)
    requires Related(a, b, rel) && rel(c, d)
    ensures Related(a.(hashes := a.hashes[id := c]), b.(hashes := b.hashes[id := d]), rel)
  {
  }

  /** Saving a task's encoding refines the protocol's save, with or without a TTL. */
  lemma FilledRefinesSaved(st: Store<Data>, db: Protocol.Db, t: TaskValue, ttl: Option<int>, now: Time, ser: Serializer)
    requires ser.Lawful() && Represents(st, db, ser) && Writable(t, ser)
    ensures Represents(Filled(st, t.id, Encode(t, ser), ttl, now), Protocol.Saved(db, t, ttl, now), ser)
  {
    FilledLoads(st, db, t, ttl, now, ser);
    var c, d := Filled(st, t.id, Encode(t, ser), ttl, now).hashes[t.id], Protocol.Saved(db, t, ttl, now).hashes[t.id];
    assert Loading(ser)(c, d);
    RelatedWith(st, db, Loading(ser), t.id, c, d);
  }

  /** A publication refines the protocol's save followed by its push. */
  lemma PublishedRefines(st: Store<Data>, db: Protocol.Db, t: TaskValue, now: Time, ser: Serializer)
    requires ser.Lawful() && Represents(st, db, ser) && Writable(t, ser)
    ensures Represents(Published(st, t.id, Encode(t, ser), t.eta, now),
                       Push(Protocol.Saved(db, t, None, now), t.id, Destination(t.eta, now)), ser)
  {
    FilledRefinesSaved(st, db, t, None, now, ser);
    PushKeepsRelated(Filled(st, t.id, Encode(t, ser), None, now), Protocol.Saved(db, t, None, now), Loading(ser), t.id,
                     Destination(t.eta, now));
  }

  lemma PushKeepsRelated<H, K>(a: Store<H>, b: Store<K>, rel: (Cell<H>, Cell<K>) -> bool, id: Id, dest: Dest)
    requires Related(a, b, rel)
    ensures Related(Push(a, id, dest), Push(b, id, dest), rel)
  {
  }

  /** What a worker loads is what the protocol loads. */
  lemma LoadRefines(st: Store<Data>, db: Protocol.Db, id: Id, now: Time, ser: Serializer)
    requires Represents(st, db, ser)
    ensures Protocol.Loadable(db, id, now) ==
            if Held(st, id, now) == map[] then None else Some(Decode(Held(st, id, now), ser).value)
    ensures Held(st, id, now) == map[] <==> !Visible(db, id, now)
  {
    ContentsAgree(st, db, id, now, ser);
    if Content(st, id, now).Some? {
      LoadsNonEmpty(Content(st, id, now).value, Content(db, id, now).value, ser);
      LoadedStatus(Content(st, id, now).value, Content(db, id, now).value, ser);
    }
  }

  lemma LoadedStatus(data: Data, t: TaskValue, ser: Serializer)
    requires Decode(data, ser) == Ok(t)
    ensures t.oldStatus == t.status
  {
  }

  // The mover

  /** The payloads name the ids of `order`, each once. */
  predicate Names(results: seq<Data>, order: seq<Id>) {
    && |results| == |order|
    && (forall i :: 0 <= i < |order| ==> AllText(results[i]) && PayloadId(results[i]) == Some(order[i]))
    && (forall i, j :: 0 <= i < j < |order| ==> order[i] != order[j])
  }

  predicate Untouched(st: Store<Data>, st': Store<Data>, id: Id) {
    (id in st'.hashes <==> id in st.hashes) && (id in st.hashes ==> st'.hashes[id] == st.hashes[id])
  }

  /** One more push: the other hashes and the delayed set stay. */
  lemma OneRequeued(init: Store<Data>, st: Store<Data>, id: Id, data: Data, now: Time)
    requires Untouched(st, init, id)
    ensures var st' := Published(init, id, data, ZERO_TIME, now);
            && st'.list == init.list + [id] && st'.delayed == init.delayed
            && (forall x :: x != id ==> Untouched(init, st', x))
            && id in st'.hashes && st'.hashes[id] == Filled(st, id, data, None, now).hashes[id]
  {
  }

  /** What the pushes leave under the id number `i`. */
  predicate RequeuedAt(st: Store<Data>, st': Store<Data>, id: Id, data: Data, now: Time) {
    id in st'.hashes && st'.hashes[id] == Filled(st, id, data, None, now).hashes[id]
  }

  lemma {:induction false} RequeuedById(st: Store<Data>, results: seq<Data>, order: seq<Id>, now: Time)
    requires Names(results, order)
    ensures var st' := Requeued(st, results, now);
            && st'.list == st.list + order && st'.delayed == st.delayed
            && (forall id :: id !in order ==> Untouched(st, st', id))
            && (forall i :: 0 <= i < |order| ==> RequeuedAt(st, st', order[i], results[i], now))
    decreases |results|
  {
    if results == [] {
      assert st.list + order == st.list;
    } else {
      var n := |order| - 1;
      RequeuedById(st, results[..n], order[..n], now);
      OneRequeued(Requeued(st, results[..n], now), st, order[n], results[n], now);
      JoinRequeued(st, Requeued(st, results[..n], now), Requeued(st, results, now), results, order, now);
    }
  }

  lemma JoinRequeued(st: Store<Data>, init: Store<Data>, st': Store<Data>, results: seq<Data>, order: seq<Id>,
                     now: Time)
    requires Names(results, order) && order != []
    requires var n := |order| - 1;
             && init.list == st.list + order[..n] && st'.list == init.list + [order[n]]
             && (forall id :: id !in order[..n] ==> Untouched(st, init, id))
             && (forall i :: 0 <= i < n ==> RequeuedAt(st, init, order[..n][i], results[..n][i], now))
             && (forall x :: x != order[n] ==> Untouched(init, st', x))
             && RequeuedAt(st, st', order[n], results[n], now)
    ensures st'.list == st.list + order
    ensures forall id :: id !in order ==> Untouched(st, st', id)
    ensures forall i :: 0 <= i < |order| ==> RequeuedAt(st, st', order[i], results[i], now)
  {
    var n := |order| - 1;
    assert order == order[..n] + [order[n]];
    forall i | 0 <= i < n ensures RequeuedAt(st, st', order[i], results[i], now) {
      assert order[..n][i] == order[i] && results[..n][i] == results[i];
      assert RequeuedAt(st, init, order[i], results[i], now) && Untouched(init, st', order[i]);
    }
    forall id | id !in order ensures Untouched(st, st', id) {
      assert id != order[n] && Untouched(st, init, id) && Untouched(init, st', id);
    }
  }

  lemma OverlaidLoads(h: Data, o: TaskValue, data: Data, p: TaskValue, ser: Serializer)
    requires LoadsAs(data, p, ser) && (LoadsAs(h, o, ser) || (h == map[] && o == BLANK))
    ensures LoadsAs(h + data, Overlaid(o, p), ser)
  {
    if LoadsAs(h, o, ser) {
      LoadAfterWriteBack(h, o, data, p, ser);
      OverlaidTidy(h, o, data, p);
    } else {
      assert h + data == data && Overlaid(o, p) == p;
    }
  }

  lemma WrittenBackLoads(st: Store<Data>, db: Protocol.Db, id: Id, data: Data, p: TaskValue, now: Time, ser: Serializer)
    requires Represents(st, db, ser) && LoadsAs(data, p, ser)
    ensures CellLoadsAs(Filled(st, id, data, None, now).hashes[id], Protocol.WrittenBack(db, id, p, now), ser)
  {
    ContentsAgree(st, db, id, now, ser);
    ExpiriesAgree(st, db, id, now, ser);
    assert Wire(data) == data;
    var h, o := Content(st, id, now), Content(db, id, now);
    OverlaidLoads(if h.Some? then h.value else map[], if o.Some? then o.value else BLANK, data, p, ser);
  }

  lemma OverlaidTidy(h: Data, o: TaskValue, data: Data, p: TaskValue)
    requires Tidy(h, o) && Tidy(data, p)
    ensures Tidy(h + data, Overlaid(o, p))
  {
    forall f: Field ensures TidyAt(h + data, Overlaid(o, p), f) {
      assert TidyAt(h, o, f) && TidyAt(data, p, f);
      OverlaidTidyAt(h, o, data, p, h + data, f);
    }
  }

  lemma OverlaidTidyAt(h: Data, o: TaskValue, data: Data, p: TaskValue, joined: Data, f: Field)
    requires TidyAt(h, o, f) && TidyAt(data, p, f) && (f in joined <==> f in h || f in data)
    ensures TidyAt(joined, Overlaid(o, p), f)
  {
  }

  /** The snapshot the protocol's mover takes. */
  function SnapshotOf(db: Protocol.Db, ids: set<Id>, now: Time): map<Id, TaskValue> {
    map id | id in ids && Visible(db, id, now) :: db.hashes[id].content
  }

  /** The payloads the broker's mover reads are the protocol's snapshot. */
  lemma SnapshotRefines(st: Store<Data>, db: Protocol.Db, ids: set<Id>, now: Time, order: seq<Id>, results: seq<Data>,
                        ser: Serializer)
    requires Represents(st, db, ser) && Snapshot(st, ids, now, order, results)
    ensures forall id :: id in order <==> id in SnapshotOf(db, ids, now)
    ensures forall i :: 0 <= i < |order| ==> LoadsAs(results[i], SnapshotOf(db, ids, now)[order[i]], ser)
  {
    forall id ensures id in order <==> id in SnapshotOf(db, ids, now) {
      LoadRefines(st, db, id, now, ser);
    }
    forall i | 0 <= i < |order| ensures LoadsAs(results[i], SnapshotOf(db, ids, now)[order[i]], ser) {
      assert order[i] in order;
      ContentsAgree(st, db, order[i], now, ser);
    }
  }

  lemma MovedList(db: Protocol.Db, snapshot: map<Id, TaskValue>, order: seq<Id>, max: Time, now: Time)
    requires forall i :: 0 <= i < |order| ==> order[i] in snapshot && snapshot[order[i]].id == order[i]
    ensures Protocol.Moved(db, max, snapshot, order, now).list == db.list + order
    ensures Protocol.Moved(db, max, snapshot, order, now).delayed == db.delayed - InRange(db.delayed, max)
  {
    assert seq(|order|, i requires 0 <= i < |order| => snapshot[order[i]].id) == order;
  }

  /** What the protocol's transaction makes of one hash. */
  predicate MovedHashAt(db: Protocol.Db, db': Protocol.Db, snapshot: map<Id, TaskValue>, now: Time, id: Id) {
    && (id in db'.hashes <==> id in db.hashes || id in snapshot)
    && (id in snapshot ==> db'.hashes[id] == Protocol.WrittenBack(db, id, snapshot[id], now))
    && (id !in snapshot && id in db.hashes ==> db'.hashes[id] == db.hashes[id])
  }

  lemma MovedAt(db: Protocol.Db, snapshot: map<Id, TaskValue>, order: seq<Id>, max: Time, now: Time, id: Id)
    requires forall i :: 0 <= i < |order| ==> order[i] in snapshot
    ensures MovedHashAt(db, Protocol.Moved(db, max, snapshot, order, now), snapshot, now, id)
  {
  }

  /** Stores stay related when the hashes of `order` are replaced by related ones and the list grows by it. */
  lemma RelatedAfter<H, K>(a: Store<H>, b: Store<K>, a': Store<H>, b': Store<K>, order: seq<Id>,
                           rel: (Cell<H>, Cell<K>) -> bool)
    requires Related(a, b, rel)
    requires a'.list == b'.list && a'.delayed == b'.delayed
    requires forall id :: id !in order ==>
               (id in a'.hashes <==> id in a.hashes) && (id in b'.hashes <==> id in b.hashes)
    requires forall id :: id in a.hashes && id !in order ==>
               a'.hashes[id] == a.hashes[id] && b'.hashes[id] == b.hashes[id]
    requires forall i :: 0 <= i < |order| ==>
               order[i] in a'.hashes && order[i] in b'.hashes && rel(a'.hashes[order[i]], b'.hashes[order[i]])
    ensures Related(a', b', rel)
  {
    forall id ensures id in a'.hashes <==> id in b'.hashes
              ensures id in a'.hashes ==> rel(a'.hashes[id], b'.hashes[id])
    {
      if id in order {
        var i :| 0 <= i < |order| && order[i] == id;
      }
    }
  }

  /** The transaction refines the protocol's: the same list, delayed set and hashes. */
  lemma TransactedRefinesMoved(st: Store<Data>, db: Protocol.Db, results: seq<Data>, order: seq<Id>,
                               snapshot: map<Id, TaskValue>, max: Time, now: Time, ser: Serializer)
    requires Represents(st, db, ser) && |results| == |order|
    requires forall i, j :: 0 <= i < j < |order| ==> order[i] != order[j]
    requires forall id :: id in order <==> id in snapshot
    requires forall i :: 0 <= i < |order| ==>
               snapshot[order[i]].id == order[i] && LoadsAs(results[i], snapshot[order[i]], ser)
    ensures Represents(Transacted(st, "", results, max, now), Protocol.Moved(db, max, snapshot, order, now), ser)
  {
    forall i | 0 <= i < |order| ensures AllText(results[i]) && PayloadId(results[i]) == Some(order[i]) {
      LoadsNonEmpty(results[i], snapshot[order[i]], ser);
    }
    RequeuedById(st, results, order, now);
    MovedList(db, snapshot, order, max, now);
    var st', db' := Transacted(st, "", results, max, now), Protocol.Moved(db, max, snapshot, order, now);
    forall id ensures MovedHashAt(db, db', snapshot, now, id) {
      MovedAt(db, snapshot, order, max, now, id);
    }
    forall i | 0 <= i < |order|
      ensures order[i] in st'.hashes && Loading(ser)(st'.hashes[order[i]], db'.hashes[order[i]])
    {
      assert RequeuedAt(st, Requeued(st, results, now), order[i], results[i], now);
      assert MovedHashAt(db, db', snapshot, now, order[i]);
      WrittenBackLoads(st, db, order[i], results[i], snapshot[order[i]], now, ser);
    }
    OthersUntouched(st, Requeued(st, results, now), order);
    forall id | id !in order
      ensures (id in db'.hashes <==> id in db.hashes) && (id in db.hashes ==> db'.hashes[id] == db.hashes[id])
    {
      assert MovedHashAt(db, db', snapshot, now, id);
    }
    RelatedAfter(st, db, st', db', order, Loading(ser));
  }

  lemma OthersUntouched(st: Store<Data>, st': Store<Data>, order: seq<Id>)
    requires forall id :: id !in order ==> Untouched(st, st', id)
    ensures forall id :: id !in order ==> (id in st'.hashes <==> id in st.hashes)
    ensures forall id :: id in st.hashes && id !in order ==> st'.hashes[id] == st.hashes[id]
  {
    forall id | id !in order
      ensures (id in st'.hashes <==> id in st.hashes) && (id in st.hashes ==> st'.hashes[id] == st.hashes[id])
    {
      assert Untouched(st, st', id);
    }
  }

  /**
   The mover of the broker refines the mover of the protocol: what it reads at one moment and writes back at a later
   one, whatever happened to the queue in between, is what the protocol's snapshot and transaction do.
   */
  lemma MoverRefines(st1: Store<Data>, db1: Protocol.Db, now1: Time, st2: Store<Data>, db2: Protocol.Db, now2: Time,
                     ids: set<Id>, max: Time, order: seq<Id>, results: seq<Data>, ser: Serializer)
    requires Represents(st1, db1, ser) && Represents(st2, db2, ser)
    requires Snapshot(st1, ids, now1, order, results)
    requires forall id :: id in db1.hashes ==> db1.hashes[id].content.id == id
    ensures (forall id :: id in order <==> id in SnapshotOf(db1, ids, now1))
    ensures Represents(Transacted(st2, "", results, max, now2),
                       Protocol.Moved(db2, max, SnapshotOf(db1, ids, now1), order, now2), ser)
  {
    SnapshotRefines(st1, db1, ids, now1, order, results, ser);
    TransactedRefinesMoved(st2, db2, results, order, SnapshotOf(db1, ids, now1), max, now2, ser);
  }

  /** With a prefix, the mover clears another key than the one it read: what it lists stays delayed and due. */
  lemma PrefixedMoverClearsNothing(st: Store<Data>, prefix: string, results: seq<Data>, order: seq<Id>, max: Time,
                                   now: Time)
    requires Names(results, order) && order != []
    requires forall i :: 0 <= i < |order| ==> order[i] in InRange(st.delayed, max)
    ensures var st' := Transacted(st, prefix, results, max, now);
            && st'.list == st.list + order
            && ((forall i :: 0 <= i < |order| ==> order[i] !in st'.delayed) <==> prefix == "")
  {
    RequeuedById(st, results, order, now);
    assert order[0] in InRange(st.delayed, max);
  }
}
