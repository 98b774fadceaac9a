/**
 The Redis broker (broker_redis.go). The server is a keyspace of lists, sorted sets and hashes; the broker's methods
 are sequences of commands on it, proved against what they do to the one queue they are called for.
 */
module Broker {
  import opened Clock
  import opened Wrappers
  import opened Codec
  import opened CodecLaws
  import opened Redis
  import opened Flatten

  type Hashes = map<string, Cell<Data>>

  datatype Keyspace = Keyspace(
    lists: map<string, seq<Id>>,
    zsets: map<string, map<Id, int>>,
    hashes: Hashes)
  {
    /** LRANGE 0 -1; a missing list is empty. */
    function List(key: string): seq<Id> {
      if key in lists then lists[key] else []
    }

    function Zset(key: string): map<Id, int> {
      if key in zsets then zsets[key] else map[]
    }

    /** What HGETALL returns, as a map; a missing or expired hash is empty. */
    function Hash(key: string, now: Time): Data {
      if key in hashes && (hashes[key].expires.Some? ==> now < hashes[key].expires.value) then hashes[key].content
      else map[]
    }

    function WithList(key: string, ids: seq<Id>): Keyspace {
      this.(lists := lists[key := ids])
    }

    function WithZset(key: string, scores: map<Id, int>): Keyspace {
      this.(zsets := zsets[key := scores])
    }

    /** The expiry of a hash after a write: the TTL's, or the one a live hash has. */
    function Expiry(key: string, ttl: Option<int>, now: Time): Option<Time> {
      if ttl.Some? then Some(AfterSeconds(now, ttl.value))
      else if key in hashes && (hashes[key].expires.Some? ==> now < hashes[key].expires.value) then hashes[key].expires
      else None
    }

    /** HMSET of flattened fields and, with a TTL in seconds, EXPIRE. */
    function WithFields(key: string, args: seq<Arg>, ttl: Option<int>, now: Time): Keyspace
      requires Alternates(args)
    {
      this.(hashes := hashes[key := Cell(HMSet(Hash(key, now), args), Expiry(key, ttl, now))])
    }
  }

  // One queue in the keyspace

  function DelayName(name: string): string {
    name + ":delay"
  }

  /** `Task.Key` and `Queue.taskKey`, and the start every task key of a queue shares. */
  function TaskKey(name: string, id: Id): string {
    name + ":" + id
  }

  /** `m` is the part of `hashes` under keys starting with `p`, by what follows `p`. */
  ghost predicate IsUnder(m: map<Id, Cell<Data>>, hashes: Hashes, p: string) {
    && (forall id :: id in m <==> p + id in hashes)
    && (forall id :: id in m ==> m[id] == hashes[p + id])
  }

  lemma SomeUnder(hashes: Hashes, p: string)
    ensures exists m :: IsUnder(m, hashes, p)
  {
    var ids := set key | key in hashes && p <= key :: key[|p|..];
    assert forall key :: key in hashes && p <= key ==> p + key[|p|..] == key;
    assert forall id :: p + id in hashes ==> (p + id)[|p|..] == id && p <= p + id;
    assert IsUnder(map id | id in ids :: hashes[p + id], hashes, p);
  }

  ghost function HashesUnder(hashes: Hashes, p: string): (m: map<Id, Cell<Data>>)
    ensures IsUnder(m, hashes, p)
  {
    SomeUnder(hashes, p);
    var m :| IsUnder(m, hashes, p);
    m
  }

  /** The keys of one queue: its list, its delayed set, and the start of its task keys. */
  datatype QueueKeys = QueueKeys(list: string, delayed: string, tasks: string)

  function KeysOf(prefix: string, name: string): QueueKeys {
    QueueKeys(prefix + name, prefix + DelayName(name), prefix + name + ":")
  }

  /** One queue as the protocol sees it. */
  ghost function View(k: Keyspace, q: QueueKeys): Store<Data> {
    Store(k.List(q.list), k.Zset(q.delayed), HashesUnder(k.hashes, q.tasks))
  }

  /** Hashes under other keys are as they were. */
  ghost predicate OtherHashes(h: Hashes, h': Hashes, p: string) {
    forall key :: !(p <= key) ==> (key in h' <==> key in h) && (key in h ==> h'[key] == h[key])
  }

  /** Nothing outside the queue differs. */
  ghost predicate SameElsewhere(k: Keyspace, k': Keyspace, q: QueueKeys) {
    && (forall key :: key != q.list ==> k'.List(key) == k.List(key))
    && (forall key :: key != q.delayed ==> k'.Zset(key) == k.Zset(key))
    && OtherHashes(k.hashes, k'.hashes, q.tasks)
  }

  /** HMSET and an optional EXPIRE on one queue: the fields are merged into what the hash held. */
  function Filled(st: Store<Data>, id: Id, data: Data, ttl: Option<int>, now: Time): Store<Data> {
    var had := Content(st, id, now);
    Write(st, id, (if had.Some? then had.value else map[]) + Wire(data), ttl, now)
  }

  /** The hash has the new fields, the fields it had besides, and every other hash is as it was. */
  ghost predicate FilledWith(st: Store<Data>, st': Store<Data>, id: Id, data: Data, now: Time) {
    && st'.hashes.Keys == st.hashes.Keys + {id}
    && (forall f :: f in data ==> f in st'.hashes[id].content && st'.hashes[id].content[f] == Str(TextOf(data[f])))
    && (forall f :: f !in data ==>
          (f in st'.hashes[id].content <==> Visible(st, id, now) && f in st.hashes[id].content)
          && (f in st'.hashes[id].content ==> st'.hashes[id].content[f] == st.hashes[id].content[f]))
    && (forall x :: x in st.hashes && x != id ==> st'.hashes[x] == st.hashes[x])
  }

  /** The expiry of a live hash, which a write without a TTL leaves alone. */
  function KeptExpiry(st: Store<Data>, id: Id, now: Time): Option<Time> {
    if Visible(st, id, now) then st.hashes[id].expires else None
  }

  lemma FilledFields(st: Store<Data>, id: Id, data: Data, ttl: Option<int>, now: Time)
    ensures var st' := Filled(st, id, data, ttl, now);
            && st'.list == st.list && st'.delayed == st.delayed && FilledWith(st, st', id, data, now)
            && st'.hashes[id].expires ==
               if ttl.Some? then Some(AfterSeconds(now, ttl.value)) else KeptExpiry(st, id, now)
  {
  }

  lemma SameTail(p: string, a: string, b: string)
    requires p + a == p + b
    ensures a == b
  {
    assert (p + a)[|p|..] == a && (p + b)[|p|..] == b;
  }

  lemma HashesWith(h: Hashes, p: string, id: Id, cell: Cell<Data>)
    ensures HashesUnder(h[p + id := cell], p) == HashesUnder(h, p)[id := cell]
  {
    var before, after := HashesUnder(h, p), HashesUnder(h[p + id := cell], p);
    forall x ensures (x in after <==> x in before || x == id) && (x in before && x != id ==> after[x] == before[x]) {
      if p + x == p + id {
        SameTail(p, x, id);
      }
    }
  }

  lemma ViewOfHash(k: Keyspace, k': Keyspace, q: QueueKeys, id: Id, cell: Cell<Data>)
    requires k' == k.(hashes := k.hashes[q.tasks + id := cell])
    ensures View(k', q) == View(k, q).(hashes := View(k, q).hashes[id := cell])
    ensures SameElsewhere(k, k', q)
  {
    HashesWith(k.hashes, q.tasks, id, cell);
    assert q.tasks <= q.tasks + id;
  }

  lemma ViewedHash(k: Keyspace, q: QueueKeys, id: Id, now: Time)
    ensures k.Hash(q.tasks + id, now) ==
            var had := Content(View(k, q), id, now); if had.Some? then had.value else map[]
    ensures id in View(k, q).hashes <==> q.tasks + id in k.hashes
    ensures id in View(k, q).hashes ==> View(k, q).hashes[id] == k.hashes[q.tasks + id]
  {
  }

  lemma FilledCell(k: Keyspace, q: QueueKeys, id: Id, data: Data, ttl: Option<int>, now: Time)
    ensures var st, key := View(k, q), q.tasks + id;
            Filled(st, id, data, ttl, now) ==
            st.(hashes := st.hashes[id := Cell(k.Hash(key, now) + Wire(data), k.Expiry(key, ttl, now))])
  {
    ViewedHash(k, q, id, now);
  }

  lemma FlattenedMerge(h: Data, args: seq<Arg>, data: Data)
    requires Flattens(args, data) && Alternates(args)
    ensures HMSet(h, args) == h + Wire(data)
  {
    RegroupFlattened(args, data);
    HMSetMerges(h, args);
  }

  lemma ViewOfFields(k: Keyspace, q: QueueKeys, id: Id, data: Data, args: seq<Arg>, ttl: Option<int>, now: Time)
    requires Flattens(args, data) && Alternates(args)
    ensures var k' := k.WithFields(q.tasks + id, args, ttl, now);
            View(k', q) == Filled(View(k, q), id, data, ttl, now) && SameElsewhere(k, k', q)
  {
    var key := q.tasks + id;
    var cell := Cell(HMSet(k.Hash(key, now), args), k.Expiry(key, ttl, now));
    FlattenedMerge(k.Hash(key, now), args, data);
    FilledCell(k, q, id, data, ttl, now);
    ViewOfHash(k, k.(hashes := k.hashes[key := cell]), q, id, cell);
  }

  /** The broker's key of a task is one of its queue's task keys. */
  lemma PrefixedKey(prefix: string, name: string, id: Id)
    ensures prefix + TaskKey(name, id) == KeysOf(prefix, name).tasks + id
  {
  }

  lemma ViewOfList(k: Keyspace, q: QueueKeys, ids: seq<Id>)
    ensures var k' := k.WithList(q.list, ids); View(k', q) == View(k, q).(list := ids) && SameElsewhere(k, k', q)
  {
  }

  lemma ViewOfZset(k: Keyspace, q: QueueKeys, scores: map<Id, int>)
    ensures var k' := k.WithZset(q.delayed, scores);
            View(k', q) == View(k, q).(delayed := scores) && SameElsewhere(k, k', q)
  {
  }

  lemma ElsewhereTwice(k: Keyspace, k1: Keyspace, k2: Keyspace, q: QueueKeys)
    requires SameElsewhere(k, k1, q) && SameElsewhere(k1, k2, q)
    ensures SameElsewhere(k, k2, q)
  {
  }

  /** A publication: the fields, then the id where the ETA sends it. */
  function Published(st: Store<Data>, id: Id, data: Data, eta: Time, now: Time): Store<Data> {
    Push(Filled(st, id, data, None, now), id, Destination(eta, now))
  }

  /** The id a payload names, if it is text. */
  function PayloadId(data: Data): Option<Id> {
    if Field.Id in data && data[Field.Id].Str? then Some(data[Field.Id].text) else None
  }

  /** The pushes of the mover's transaction: payloads without an id are passed over. */
  function Requeued(st: Store<Data>, results: seq<Data>, now: Time): Store<Data> {
    if results == [] then st
    else
      var init, last := Requeued(st, results[..|results| - 1], now), results[|results| - 1];
      if PayloadId(last).None? then init else Published(init, PayloadId(last).value, last, ZERO_TIME, now)
  }

  /** The content of a live hash; empty for a missing or expired one. */
  function Held(st: Store<Data>, id: Id, now: Time): Data {
    var had := Content(st, id, now);
    if had.Some? then had.value else map[]
  }

  /** The ids a pop or a range read returned, without the name it was read under. */
  function Wanted(result: seq<string>, name: string): set<Id> {
    set id | id in result && id != name
  }

  /** `results` are the non-empty hashes of the wanted ids, each once, in the order `order` names them. */
  ghost predicate Snapshot(st: Store<Data>, wanted: set<Id>, now: Time, order: seq<Id>, results: seq<Data>) {
    && |results| == |order|
    && (forall i, j :: 0 <= i < j < |order| ==> order[i] != order[j])
    && (forall i :: 0 <= i < |order| ==> results[i] == Held(st, order[i], now))
    && (forall id :: id in order <==> id in wanted && Held(st, id, now) != map[])
  }

  /** `results` are the non-empty values, each once, of the keys `p` followed by an id of `order`. */
  ghost predicate Lists(values: map<string, Data>, p: string, order: seq<Id>, results: seq<Data>) {
    && |results| == |order|
    && (forall i, j :: 0 <= i < j < |order| ==> order[i] != order[j])
    && (forall i :: 0 <= i < |order| ==> p + order[i] in values && results[i] == values[p + order[i]])
    && (forall id :: id in order <==> p + id in values && values[p + id] != map[])
  }

  lemma ListsOneMore(values: map<string, Data>, left: set<string>, p: string, id: Id, order: seq<Id>,
                     results: seq<Data>)
    requires left <= values.Keys && p + id in left && Lists(values - left, p, order, results)
    ensures var data := values[p + id];
            Lists(values - (left - {p + id}), p, if data == map[] then order else order + [id],
                  if data == map[] then results else results + [data])
  {
    assert id !in order;
    forall x ensures p + x == p + id <==> x == id {
      if p + x == p + id {
        SameTail(p, x, id);
      }
    }
  }

  lemma ListsSnapshot(st: Store<Data>, wanted: set<Id>, now: Time, values: map<string, Data>, p: string,
                      order: seq<Id>, results: seq<Data>)
    requires Lists(values, p, order, results)
    requires forall id :: p + id in values <==> id in wanted
    requires forall id :: p + id in values ==> values[p + id] == Held(st, id, now)
    ensures Snapshot(st, wanted, now, order, results)
  {
  }

  /**
   What a pop reads: the hash of the popped id, and with a prefix also the one the list's own key would name as an id,
   since only the unprefixed name is passed over.
   */
  ghost predicate PoppedPayloads(st: Store<Data>, prefix: string, name: string, now: Time, results: seq<Data>)
    requires st.list != []
  {
    var left, wanted := Popped(st), Wanted([prefix + name, st.list[|st.list| - 1]], name);
    exists order :: Snapshot(left, wanted, now, order, results)
  }

  /** What is left of a queue by the mover's transaction, which clears a range of the unprefixed key. */
  function Transacted(st: Store<Data>, prefix: string, results: seq<Data>, max: Time, now: Time): Store<Data> {
    var pushed := Requeued(st, results, now);
    if prefix == "" then Cleared(pushed, max) else pushed
  }

  lemma OtherZset(k: Keyspace, prefix: string, name: string, scores: map<Id, int>)
    ensures var k', q := k.WithZset(DelayName(name), scores), KeysOf(prefix, name);
            View(k', q) == if prefix == "" then View(k, q).(delayed := scores) else View(k, q)
    ensures prefix == "" ==> prefix + DelayName(name) == DelayName(name)
    ensures prefix == "" ==> SameElsewhere(k, k.WithZset(DelayName(name), scores), KeysOf(prefix, name))
  {
    if prefix == "" {
      assert prefix + DelayName(name) == DelayName(name);
      ViewOfZset(k, KeysOf(prefix, name), scores);
    } else {
      assert |prefix + DelayName(name)| > |DelayName(name)|;
    }
  }

  /** Payloads that name no id are passed over, and take no others with them. */
  function Named(results: seq<Data>): seq<Data> {
    if results == [] then []
    else
      var init, last := Named(results[..|results| - 1]), results[|results| - 1];
      if PayloadId(last).None? then init else init + [last]
  }

  lemma {:induction false} UnnamedPassedOver(st: Store<Data>, results: seq<Data>, now: Time)
    ensures Requeued(st, results, now) == Requeued(st, Named(results), now)
    ensures forall x: Data :: x in Named(results) <==> x in results && Field.Id in x && x[Field.Id].Str?
  {
    if results != [] {
      var init, last := results[..|results| - 1], results[|results| - 1];
      UnnamedPassedOver(st, init, now);
      assert results == init + [last];
      if PayloadId(last).Some? {
        assert Named(results)[..|Named(results)| - 1] == Named(init);
      }
    }
  }

  // Keys

  lemma EmptyIdFirst(name: string, id: Id)
    requires ':' !in id
    ensures var k := TaskKey(name, id); id == "" <==> k[|k| - 1] == ':'
  {
    var k := TaskKey(name, id);
    if id != "" {
      assert k[|k| - 1] == id[|id| - 1] && id[|id| - 1] in id;
    }
  }

  /** Ids without a colon have task keys of their own, whatever the queues are called. */
  lemma {:induction false} TaskKeysApart(name1: string, id1: Id, name2: string, id2: Id)
    requires ':' !in id1 && ':' !in id2 && TaskKey(name1, id1) == TaskKey(name2, id2)
    ensures name1 == name2 && id1 == id2
    decreases |id1|
  {
    var k1, k2 := TaskKey(name1, id1), TaskKey(name2, id2);
    if id1 == "" || id2 == "" {
      EmptyIdFirst(name1, id1);
      EmptyIdFirst(name2, id2);
      assert k1[..|k1| - 1] == name1 && k2[..|k2| - 1] == name2;
    } else {
      var n1, n2 := |id1| - 1, |id2| - 1;
      assert k1[|k1| - 1] == id1[n1] && k2[|k2| - 1] == id2[n2];
      assert TaskKey(name1, id1[..n1]) == k1[..|k1| - 1] && TaskKey(name2, id2[..n2]) == k2[..|k2| - 1];
      TaskKeysApart(name1, id1[..n1], name2, id2[..n2]);
      assert id1 == id1[..n1] + [id1[n1]] && id2 == id2[..n2] + [id2[n2]];
    }
  }

  /** A queue's delayed set has a key of its own, and never that of its list. */
  lemma DelayNamesApart(name1: string, name2: string)
    ensures DelayName(name1) == DelayName(name2) <==> name1 == name2
    ensures DelayName(name1) != name1
  {
    assert DelayName(name1)[..|DelayName(name1)| - 6] == name1;
    assert DelayName(name2)[..|DelayName(name2)| - 6] == name2;
  }

  class Server {
    var keys: Keyspace

    constructor ()
      ensures keys == Keyspace(map[], map[], map[])
    {
      keys := Keyspace(map[], map[], map[]);
    }
  }

  class RedisBroker {
    const prefix: string
    const server: Server
    var queues: set<string>
    /** The movers' goroutines, by the name they were started with. */
    var movers: multiset<string>

    constructor (server: Server, prefix: string)
      ensures this.server == server && this.prefix == prefix && queues == {} && Valid()
    {
      this.server, this.prefix := server, prefix;
      queues, movers := {}, multiset{};
    }

    /** One mover per registered queue, none for the others. */
    ghost predicate Valid()
      reads this
    {
      forall d :: movers[d] == if d in queues then 1 else 0
    }

    ghost function Queue(name: string): Store<Data>
      reads this, server
    {
      View(server.keys, KeysOf(prefix, name))
    }

    /** Registration of a queue's mover, under the broker's mutex. */
    method ConsumeDelayed(name: string)
      requires Valid()
      modifies this
      ensures Valid() && DelayName(name) in queues && movers[DelayName(name)] == 1
      ensures queues == old(queues) + {DelayName(name)}
    {
      var delayName := DelayName(name);
      if delayName !in queues {
        movers := movers + multiset{delayName};
        queues := queues + {delayName};
      }
    }

    /** The commands of `publish`: HMSET, then RPUSH, LPUSH or ZADD. */
    method Publish(queueName: string, taskID: Id, data: Data, eta: Time, now: Time)
      modifies server
      ensures Queue(queueName) == Published(old(Queue(queueName)), taskID, data, eta, now)
      ensures var st, st' := old(Queue(queueName)), Queue(queueName);
              && (eta == ZERO_TIME ==> st'.list == st.list + [taskID] && st'.delayed == st.delayed)
              && (eta != ZERO_TIME && eta < now ==> st'.list == [taskID] + st.list && st'.delayed == st.delayed)
              && (eta != ZERO_TIME && eta >= now ==>
                    st'.list == st.list && st'.delayed == st.delayed[taskID := Second(eta)])
      ensures FilledWith(old(Queue(queueName)), Queue(queueName), taskID, data, now)
      ensures Queue(queueName).hashes[taskID].expires == KeptExpiry(old(Queue(queueName)), taskID, now)
      ensures SameElsewhere(old(server.keys), server.keys, KeysOf(prefix, queueName))
    {
      ghost var k, q, st := server.keys, KeysOf(prefix, queueName), Queue(queueName);
      FilledFields(st, taskID, data, None, now);
      var args := Unpack(data);
      RegroupFlattened(args[..], data);
      ViewOfFields(k, q, taskID, data, args[..], None, now);
      server.keys := server.keys.WithFields(prefix + queueName + ":" + taskID, args[..], None, now);
      ghost var k1 := server.keys;
      if eta == ZERO_TIME {
        var key := prefix + queueName;
        ViewOfList(k1, q, k1.List(key) + [taskID]);
        server.keys := server.keys.WithList(key, server.keys.List(key) + [taskID]);
      } else if eta < now {
        var key := prefix + queueName;
        ViewOfList(k1, q, [taskID] + k1.List(key));
        server.keys := server.keys.WithList(key, [taskID] + server.keys.List(key));
      } else {
        var key := prefix + DelayName(queueName);
        ViewOfZset(k1, q, k1.Zset(key)[taskID := Second(eta)]);
        server.keys := server.keys.WithZset(key, server.keys.Zset(key)[taskID := Second(eta)]);
      }
      ElsewhereTwice(k, k1, server.keys, q);
    }

    /** `Set`: HMSET alone when the expiration has no whole second, HMSETEXPIRE otherwise. */
    method Set(taskKey: string, data: Data, expiration: Duration, now: Time, ghost name: string, ghost id: Id)
      requires taskKey == TaskKey(name, id)
      modifies server
      ensures var ttl := if WholeSeconds(expiration) == 0 then None else Some(WholeSeconds(expiration));
              Queue(name) == Filled(old(Queue(name)), id, data, ttl, now)
      ensures Queue(name).list == old(Queue(name)).list && Queue(name).delayed == old(Queue(name)).delayed
      ensures FilledWith(old(Queue(name)), Queue(name), id, data, now)
      ensures Queue(name).hashes[id].expires ==
              if WholeSeconds(expiration) == 0 then KeptExpiry(old(Queue(name)), id, now)
              else Some(AfterSeconds(now, WholeSeconds(expiration)))
      ensures SameElsewhere(old(server.keys), server.keys, KeysOf(prefix, name))
    {
      ghost var st, ttl := Queue(name), if WholeSeconds(expiration) == 0 then None else Some(WholeSeconds(expiration));
      var args := Unpack(data);
      RegroupFlattened(args[..], data);
      if WholeSeconds(expiration) == 0 {
        WriteFields(taskKey, args[..], None, now, name, id, data);
      } else {
        var values := [Item(Num(WholeSeconds(expiration)))] + args[..];
        assert values[1..] == args[..];
        WriteFields(taskKey, values[1..], Some(values[0].v.n), now, name, id, data);
      }
      FilledFields(st, id, data, ttl, now);
    }

    /** HMSET of the fields under a task key, and EXPIRE with a TTL. */
    method WriteFields(taskKey: string, args: seq<Arg>, ttl: Option<int>, now: Time,
                       ghost name: string, ghost id: Id, ghost data: Data)
      requires taskKey == TaskKey(name, id) && Flattens(args, data) && Alternates(args)
      modifies server
      ensures Queue(name) == Filled(old(Queue(name)), id, data, ttl, now)
      ensures SameElsewhere(old(server.keys), server.keys, KeysOf(prefix, name))
    {
      PrefixedKey(prefix, name, id);
      ViewOfFields(server.keys, KeysOf(prefix, name), id, data, args, ttl, now);
      server.keys := server.keys.WithFields(prefix + taskKey, args, ttl, now);
    }

    /** HGETALL and the script's `collate`. */
    method HashOf(key: string, now: Time) returns (data: Data)
      ensures data == server.keys.Hash(key, now)
    {
      var raw := Unpack(server.keys.Hash(key, now));
      RegroupFlattened(raw[..], server.keys.Hash(key, now));
      data := Collate(raw[..]);
    }

    /** `Get`. */
    method Get(taskKey: string, now: Time, ghost name: string, ghost id: Id) returns (data: Data)
      requires taskKey == TaskKey(name, id)
      ensures data == var had := Content(Queue(name), id, now); if had.Some? then had.value else map[]
    {
      PrefixedKey(prefix, name, id);
      ViewedHash(server.keys, KeysOf(prefix, name), id, now);
      data := HashOf(prefix + taskKey, now);
    }

    /** BRPOP: the queue's key and its rightmost id, or nothing. */
    method Pop(name: string) returns (result: seq<string>)
      modifies server
      ensures old(Queue(name)).list == [] ==> result == [] && Queue(name) == old(Queue(name))
      ensures var list := old(Queue(name)).list;
              list != [] ==> result == [prefix + name, list[|list| - 1]] && Queue(name) == Popped(old(Queue(name)))
      ensures SameElsewhere(old(server.keys), server.keys, KeysOf(prefix, name))
    {
      var queueKey := prefix + name;
      var list := server.keys.List(queueKey);
      if list == [] {
        return [];
      }
      ViewOfList(server.keys, KeysOf(prefix, name), list[..|list| - 1]);
      server.keys := server.keys.WithList(queueKey, list[..|list| - 1]);
      result := [queueKey, list[|list| - 1]];
    }

    /** ZRANGEBYSCORE: the ids in range, here in any order. */
    method RangeByScore(name: string, max: Time) returns (result: seq<Id>)
      ensures forall id :: id in result <==> id in InRange(Queue(name).delayed, max)
      ensures forall id :: id in result <==>
                id in Queue(name).delayed && 0 <= Queue(name).delayed[id] <= Second(max)
    {
      var left := InRange(server.keys.Zset(prefix + DelayName(name)), max);
      result := [];
      ghost var all := left;
      while left != {}
        invariant forall id :: id in all <==> id in result || id in left
        decreases |left|
      {
        var id :| id in left;
        result := result + [id];
        left := left - {id};
      }
    }

    /** MULTIHGETALL: the hashes of the given keys, by key. */
    method PayloadsFromKeys(taskKeys: seq<string>, now: Time) returns (values: map<string, Data>)
      ensures forall key :: key in values <==> key in taskKeys
      ensures forall key :: key in values ==> values[key] == server.keys.Hash(key, now)
    {
      values := map[];
      for i := 0 to |taskKeys|
        invariant forall key :: key in values <==> key in taskKeys[..i]
        invariant forall key :: key in values ==> values[key] == server.keys.Hash(key, now)
      {
        var data := HashOf(taskKeys[i], now);
        values := values[taskKeys[i] := data];
      }
    }

    /** The task keys of what a pop or a range read returned; the name it was read under is passed over. */
    method TaskKeys(name: string, taskPrefix: string, result: seq<string>) returns (taskKeys: seq<string>)
      ensures forall id :: KeysOf(prefix, taskPrefix).tasks + id in taskKeys <==> id in result && id != name
      ensures forall key :: key in taskKeys ==> KeysOf(prefix, taskPrefix).tasks <= key
    {
      taskKeys := [];
      ghost var p := KeysOf(prefix, taskPrefix).tasks;
      for i := 0 to |result|
        invariant forall id :: p + id in taskKeys <==> id in result[..i] && id != name
        invariant forall key :: key in taskKeys ==> p <= key
      {
        if result[i] != name {
          var key := prefix + taskPrefix + ":" + result[i];
          ghost var before := taskKeys;
          taskKeys := taskKeys + [key];
          forall id ensures p + id in taskKeys <==> id in result[..i + 1] && id != name {
            if p + id == key {
              SameTail(p, id, result[i]);
            }
            assert p + id in taskKeys <==> p + id in before || p + id == key;
          }
        }
      }
      assert result[..|result|] == result;
    }

    /** The last loop of `consume`: Go ranges over the payloads in an unspecified order and passes over empty ones. */
    method NonEmpty(values: map<string, Data>, ghost p: string) returns (results: seq<Data>)
      requires forall key :: key in values ==> p <= key
      ensures exists order :: Lists(values, p, order, results)
    {
      results := [];
      ghost var order: seq<Id> := [];
      var left := values.Keys;
      while left != {}
        invariant left <= values.Keys
        invariant Lists(values - left, p, order, results)
        decreases |left|
      {
        var key :| key in left;
        assert key == p + key[|p|..];
        ListsOneMore(values, left, p, key[|p|..], order, results);
        left := left - {key};
        if values[key] != map[] {
          results := results + [values[key]];
          order := order + [key[|p|..]];
        }
      }
      assert values - left == values;
    }

    /** The end of `consume`: the payloads of the ids it has read, without the empty ones. */
    method Payloads(name: string, taskPrefix: string, result: seq<string>, now: Time) returns (results: seq<Data>)
      ensures exists order :: Snapshot(Queue(taskPrefix), Wanted(result, name), now, order, results)
    {
      var taskKeys := TaskKeys(name, taskPrefix, result);
      var values := PayloadsFromKeys(taskKeys, now);
      ghost var q := KeysOf(prefix, taskPrefix);
      results := NonEmpty(values, q.tasks);
      ghost var order :| Lists(values, q.tasks, order, results);
      forall id ensures server.keys.Hash(q.tasks + id, now) == Held(Queue(taskPrefix), id, now) {
        ViewedHash(server.keys, q, id, now);
      }
      ListsSnapshot(Queue(taskPrefix), Wanted(result, name), now, values, q.tasks, order, results);
    }

    /** The worker's `consume`: registers the mover, pops one id, and reads its hash. */
    method Consume(name: string, now: Time) returns (results: seq<Data>)
      requires Valid()
      modifies this, server
      ensures Valid() && movers[DelayName(name)] == 1
      ensures old(Queue(name)).list == [] ==> results == [] && Queue(name) == old(Queue(name))
      ensures var st := old(Queue(name));
              st.list != [] ==>
                && Queue(name) == Popped(st) && PoppedPayloads(st, prefix, name, now, results)
                && var id := st.list[|st.list| - 1];
                   prefix == "" && id != name ==>
                     results == if Held(st, id, now) == map[] then [] else [Held(st, id, now)]
      ensures SameElsewhere(old(server.keys), server.keys, KeysOf(prefix, name))
    {
      ConsumeDelayed(name);
      ghost var st := Queue(name);
      var result := Pop(name);
      if |result| == 0 {
        return [];
      }
      results := Payloads(name, name, result, now);
      if prefix == "" && result[1] != name {
        assert prefix + name == name;
        assert Queue(name).hashes == st.hashes;
        ghost var wanted := Wanted(result, name);
        ghost var order :| Snapshot(Queue(name), wanted, now, order, results);
        OnlyOne(Queue(name), result[1], wanted, now, order, results);
      }
    }

    /** The mover's first step: the range read and the payloads. */
    method ReadDue(name: string, max: Time, now: Time) returns (results: seq<Data>)
      ensures var st := Queue(name);
              exists order :: Snapshot(st, InRange(st.delayed, max) - {DelayName(name)}, now, order, results)
    {
      var ids := RangeByScore(name, max);
      results := Payloads(DelayName(name), name, ids, now);
      assert Wanted(ids, DelayName(name)) == InRange(Queue(name).delayed, max) - {DelayName(name)};
    }

    /** The mover's transaction, whatever has happened since the payloads were read. */
    method Requeue(name: string, results: seq<Data>, max: Time, now: Time)
      modifies server
      ensures Queue(name) == Transacted(old(Queue(name)), prefix, results, max, now)
      ensures prefix == "" ==> SameElsewhere(old(server.keys), server.keys, KeysOf(prefix, name))
    {
      ghost var k := server.keys;
      for i := 0 to |results|
        invariant Queue(name) == Requeued(old(Queue(name)), results[..i], now)
        invariant SameElsewhere(k, server.keys, KeysOf(prefix, name))
      {
        assert results[..i + 1][..i] == results[..i];
        if Field.Id in results[i] && results[i][Field.Id].Str? {
          ghost var before := server.keys;
          Publish(name, results[i][Field.Id].text, results[i], ZERO_TIME, now);
          ElsewhereTwice(k, before, server.keys, KeysOf(prefix, name));
        }
      }
      assert results[..|results|] == results;
      ghost var pushed := server.keys;
      var key := DelayName(name);
      var scores := server.keys.Zset(key);
      OtherZset(pushed, prefix, name, scores - InRange(scores, max));
      server.keys := server.keys.WithZset(key, scores - InRange(scores, max));
      if prefix == "" {
        ElsewhereTwice(k, pushed, server.keys, KeysOf(prefix, name));
      }
    }

    /** One tick of the mover with nothing in between: no transaction unless a payload was read. */
    method Tick(name: string, max: Time, now: Time) returns (results: seq<Data>)
      modifies server
      ensures var st := old(Queue(name));
              exists order :: Snapshot(st, InRange(st.delayed, max) - {DelayName(name)}, now, order, results)
      ensures Queue(name) ==
              if results == [] then old(Queue(name)) else Transacted(old(Queue(name)), prefix, results, max, now)
    {
      results := ReadDue(name, max, now);
      if |results| != 0 {
        Requeue(name, results, max, now);
      }
    }

    /** `Count`: what waits in the list, what is delayed, and both together. */
    method Count(queueName: string) returns (direct: int, delayed: int, total: int)
      ensures direct == |Queue(queueName).list| && delayed == |Queue(queueName).delayed| && total == direct + delayed
    {
      direct := |server.keys.List(prefix + queueName)|;
      delayed := |server.keys.Zset(prefix + DelayName(queueName))|;
      total := direct + delayed;
    }

    /** `Empty`: the list goes; delayed ids and hashes stay. */
    method Empty(name: string)
      modifies server
      ensures Queue(name) == old(Queue(name)).(list := [])
      ensures SameElsewhere(old(server.keys), server.keys, KeysOf(prefix, name))
    {
      ViewOfList(server.keys, KeysOf(prefix, name), []);
      server.keys := server.keys.WithList(prefix + name, []);
    }
  }

  lemma OnlyOne(st: Store<Data>, id: Id, wanted: set<Id>, now: Time, order: seq<Id>, results: seq<Data>)
    requires Snapshot(st, wanted, now, order, results) && wanted == {id}
    ensures results == if Held(st, id, now) == map[] then [] else [Held(st, id, now)]
  {
    assert |order| > 1 ==> order[0] != order[1];
    forall i | 0 <= i < |order| ensures order[i] == id && Held(st, id, now) != map[] {
      assert order[i] in order;
    }
    assert order != [] ==> order[0] == id;
    if Held(st, id, now) != map[] {
      assert id in order;
    }
  }
}
