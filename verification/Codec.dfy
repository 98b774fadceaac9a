/**
 The task codec (task.go, utils.go): `Serialize` writes a task as a map of fields, Redis keeps every field as text,
 and `TaskFromPayload` reads it back.
 */
module Codec {
  import opened Clock
  import opened Wrappers
  import opened Tasks
  import Decimal

  /** The keys of a task's hash. */
  datatype Field =
    | Id | Name | Status | PublishedAt | MaxRetries | Ttl | Timeout | Eta | ProcessedAt | StartedAt
    | Payload | Result | Error | RetryIntervals

  /** What `Serialize` stores under a key: text, a Go integer, or raw bytes (the error's). */
  datatype Value = Str(text: string) | Num(n: int) | Bytes(bytes: string)

  /** A map of fields: what `Serialize` returns, and what a task's hash holds (then every value is text). */
  type Data = map<Field, Value>

  /** The pluggable serializer: `dumps` fails on what it cannot write. */
  datatype Serializer = Serializer(dumps: Json -> Option<string>, loads: string -> Option<Json>) {
    /** The one law used of it: loading what was dumped gives the value back. */
    ghost predicate Lawful() {
      forall v :: dumps(v).Some? ==> loads(dumps(v).value) == Some(v)
    }
  }

  // Writing

  /** Every integer of the task fits Go's 64-bit integers, as its fields' types guarantee. */
  predicate Representable(t: TaskValue) {
    && IsInt64(t.status) && IsInt64(t.maxRetries)
    && IsInt64(Second(t.publishedAt)) && IsInt64(Second(t.startedAt))
    && IsInt64(Second(t.processedAt)) && IsInt64(Second(t.eta))
  }

  /** The serializer can write the task's payload, result and error. */
  predicate Dumpable(t: TaskValue, ser: Serializer) {
    && (t.payload != Null ==> ser.dumps(t.payload).Some?)
    && (t.result != Null ==> ser.dumps(t.result).Some?)
    && (t.error.Raised? ==> ser.dumps(Text(t.error.message)).Some?)
  }

  function IntervalTexts(ds: seq<Duration>): (texts: seq<string>)
    ensures |texts| == |ds|
  {
    seq(|ds|, i requires 0 <= i < |ds| => Decimal.Print(WholeSeconds(ds[i])))
  }

  function WrittenTime(t: Time): Option<Value> {
    if t == ZERO_TIME then None else Some(Num(Second(t)))
  }

  /** What `Serialize` writes under one key; `None` when it leaves the key out. */
  function Written(t: TaskValue, ser: Serializer, f: Field): Option<Value>
    requires Dumpable(t, ser)
  {
    match f
    case Id => Some(Str(t.id))
    case Name => Some(Str(t.name))
    case Status => Some(Num(t.status))
    case PublishedAt => Some(Num(Second(t.publishedAt)))
    case MaxRetries => Some(Num(t.maxRetries))
    case Ttl => Some(Num(WholeSeconds(t.ttl)))
    case Timeout => Some(Num(WholeSeconds(t.timeout)))
    case Eta => WrittenTime(t.eta)
    case ProcessedAt => WrittenTime(t.processedAt)
    case StartedAt => WrittenTime(t.startedAt)
    case Payload => if t.payload == Null then None else Some(Str(ser.dumps(t.payload).value))
    case Result => if t.result == Null then None else Some(Str(ser.dumps(t.result).value))
    case Error => if t.error.Raised? then Some(Bytes(ser.dumps(Text(t.error.message)).value)) else None
    case RetryIntervals =>
      if t.intervals == [] then None else Some(Str(Decimal.Join(IntervalTexts(t.intervals))))
  }

  function Encode(t: TaskValue, ser: Serializer): Data
    requires Dumpable(t, ser)
  {
    map f: Field | Written(t, ser, f).Some? :: Written(t, ser, f).value
  }

  /** The keys written without the serializer. */
  const PLAIN: set<Field> := {Id, Name, Status, PublishedAt, MaxRetries, Ttl, Timeout, Eta, ProcessedAt, StartedAt}

  /** What `Serialize` has written once it has treated the keys `fs`. */
  function Partial(t: TaskValue, ser: Serializer, fs: set<Field>): Data
    requires Dumpable(t, ser)
  {
    map f | f in fs && Written(t, ser, f).Some? :: Written(t, ser, f).value
  }

  lemma PartialAll(t: TaskValue, ser: Serializer, fs: set<Field>)
    requires Dumpable(t, ser)
    requires PLAIN + {Payload, Result, Error, RetryIntervals} <= fs
    ensures Partial(t, ser, fs) == Encode(t, ser)
  {
    forall f: Field ensures f in fs {
      assert f.Id? || f.Name? || f.Status? || f.PublishedAt? || f.MaxRetries? || f.Ttl? || f.Timeout?
          || f.Eta? || f.ProcessedAt? || f.StartedAt? || f.Payload? || f.Result? || f.Error? || f.RetryIntervals?;
    }
  }

  /** The loop of `Serialize` over the intervals. */
  method PrintIntervals(ds: seq<Duration>) returns (texts: seq<string>)
    ensures texts == IntervalTexts(ds)
  {
    var printed := new string[|ds|];
    for i := 0 to |ds|
      invariant printed[..i] == IntervalTexts(ds)[..i]
    {
      printed[i] := Decimal.Print(WholeSeconds(ds[i]));
    }
    texts := printed[..];
  }

  /** The first part of `Serialize`: the keys always written, then the times that are set. */
  method SerializeTimes(t: TaskValue, ghost ser: Serializer) returns (data: Data)
    ensures Dumpable(t, ser) ==> data == Partial(t, ser, PLAIN)
  {
    data := map[
      Id := Str(t.id), Name := Str(t.name), Status := Num(t.status),
      PublishedAt := Num(Second(t.publishedAt)), MaxRetries := Num(t.maxRetries),
      Ttl := Num(WholeSeconds(t.ttl)), Timeout := Num(WholeSeconds(t.timeout))];
    ghost var done := {Id, Name, Status, PublishedAt, MaxRetries, Ttl, Timeout};
    assert Dumpable(t, ser) ==> data == Partial(t, ser, done);
    data, done := StoreIf(t, ser, data, done, Eta, t.eta != ZERO_TIME, Num(Second(t.eta)));
    data, done := StoreIf(t, ser, data, done, ProcessedAt, t.processedAt != ZERO_TIME, Num(Second(t.processedAt)));
    data, done := StoreIf(t, ser, data, done, StartedAt, t.startedAt != ZERO_TIME, Num(Second(t.startedAt)));
    assert done == PLAIN;
  }

  /**
   `Serialize`: the map is filled step by step; a value the serializer cannot write is an error.
   The source's receiver is a copy of the task.
   */
  method Serialize(t: TaskValue, ser: Serializer) returns (r: Option<Data>)
    ensures r == if Dumpable(t, ser) then Some(Encode(t, ser)) else None
  {
    var data := SerializeTimes(t, ser);
    var payload :- DumpIf(t.payload, ser);
    var result :- DumpIf(t.result, ser);
    var message :- DumpIf(if t.error.Raised? then Text(t.error.message) else Null, ser);
    data := SerializeTexts(t, ser, data, payload, result, message);
    r := Some(data);
  }

  /** The last part of `Serialize`: what the serializer wrote, and the interval list. */
  method SerializeTexts(t: TaskValue, ghost ser: Serializer, data: Data,
                        payload: string, result: string, message: string)
    returns (full: Data)
    requires Dumpable(t, ser) && data == Partial(t, ser, PLAIN)
    requires t.payload != Null ==> ser.dumps(t.payload) == Some(payload)
    requires t.result != Null ==> ser.dumps(t.result) == Some(result)
    requires t.error.Raised? ==> ser.dumps(Text(t.error.message)) == Some(message)
    ensures full == Encode(t, ser)
  {
    full := SerializeValues(t, ser, data, payload, result);
    var intervals := PrintIntervals(t.intervals);
    ghost var done := PLAIN + {Payload, Result};
    full, done := StoreIf(t, ser, full, done, Error, t.error.Raised?, Bytes(message));
    full, done := StoreIf(t, ser, full, done, RetryIntervals, |t.intervals| > 0, Str(Decimal.Join(intervals)));
    PartialAll(t, ser, done);
  }

  method SerializeValues(t: TaskValue, ghost ser: Serializer, data: Data, payload: string, result: string)
    returns (extended: Data)
    requires Dumpable(t, ser) && data == Partial(t, ser, PLAIN)
    requires t.payload != Null ==> ser.dumps(t.payload) == Some(payload)
    requires t.result != Null ==> ser.dumps(t.result) == Some(result)
    ensures extended == Partial(t, ser, PLAIN + {Payload, Result})
  {
    ghost var done := PLAIN;
    extended, done := StoreIf(t, ser, data, done, Payload, t.payload != Null, Str(payload));
    extended, done := StoreIf(t, ser, extended, done, Result, t.result != Null, Str(result));
    assert done == PLAIN + {Payload, Result};
  }

  /** `Dumps` behind its nil check. */
  method DumpIf(v: Json, ser: Serializer) returns (r: Option<string>)
    ensures v == Null ==> r == Some("")
    ensures v != Null ==> r == ser.dumps(v)
  {
    r := if v == Null then Some("") else ser.dumps(v);
  }

  /** One conditional assignment of `Serialize`. */
  method StoreIf(ghost t: TaskValue, ghost ser: Serializer, data: Data, ghost done: set<Field>,
                 f: Field, present: bool, v: Value)
    returns (extended: Data, ghost done': set<Field>)
    requires f !in done
    requires Dumpable(t, ser) ==> data == Partial(t, ser, done)
    requires Dumpable(t, ser) ==> Written(t, ser, f) == if present then Some(v) else None
    ensures extended == if present then data[f := v] else data
    ensures done' == done + {f}
    ensures Dumpable(t, ser) ==> extended == Partial(t, ser, done')
  {
    extended := if present then data[f := v] else data;
    done' := done + {f};
  }

  // Reading

  /** `mapString`: text as it is, integers printed, anything else (a missing optional key too) as the empty text. */
  function MapString(data: Data, f: Field, optional: bool): Result<string, Field> {
    if f !in data && !optional then Err(f)
    else if f in data && data[f].Str? then Ok(data[f].text)
    else if f in data && data[f].Num? then Ok(Decimal.Print(data[f].n))
    else Ok("")
  }

  /** Two's-complement wrap-around of a 64-bit product. */
  function Wrap(n: int): (d: Duration)
    ensures (d - n) % 0x1_0000_0000_0000_0000 == 0
  {
    (n + 0x8000_0000_0000_0000) % 0x1_0000_0000_0000_0000 - 0x8000_0000_0000_0000
  }

  function ReadInt(raw: string): Option<int> {
    if raw == "" then Some(0) else Decimal.Parse(raw)
  }

  function ReadTime(raw: string): Option<Time> {
    if raw == "" then Some(ZERO_TIME)
    else
      var seconds :- Decimal.Parse(raw);
      Some(seconds * 1_000_000_000)
  }

  function ReadDuration(raw: string): Option<Duration> {
    if raw == "" then Some(0)
    else
      var seconds :- Decimal.Parse(raw);
      Some(Wrap(seconds * 1_000_000_000))
  }

  function ReadIntervalList(parts: seq<string>): (r: Option<seq<Duration>>)
    ensures r.Some? ==> |r.value| == |parts|
  {
    if parts == [] then Some([])
    else
      var init :- ReadIntervalList(parts[..|parts| - 1]);
      var last :- Decimal.Parse(parts[|parts| - 1]);
      Some(init + [Wrap(last * 1_000_000_000)])
  }

  function ReadIntervals(raw: string): Option<seq<Duration>> {
    if raw == "" then Some([]) else ReadIntervalList(Decimal.Split(raw))
  }

  function Or<T>(r: Option<T>, f: Field): Result<T, Field> {
    if r.Some? then Ok(r.value) else Err(f)
  }

  function MapInt(data: Data, f: Field, optional: bool): Result<int, Field> {
    var raw :- MapString(data, f, optional);
    Or(ReadInt(raw), f)
  }

  function MapTime(data: Data, f: Field, optional: bool): Result<Time, Field> {
    var raw :- MapString(data, f, optional);
    Or(ReadTime(raw), f)
  }

  function MapDuration(data: Data, f: Field, optional: bool): Result<Duration, Field> {
    var raw :- MapString(data, f, optional);
    Or(ReadDuration(raw), f)
  }

  function MapIntervals(data: Data): Result<seq<Duration>, Field> {
    var raw :- MapString(data, RetryIntervals, true);
    Or(ReadIntervals(raw), RetryIntervals)
  }

  function MapPayload(data: Data, ser: Serializer): Result<Json, Field> {
    var raw :- MapString(data, Payload, false);
    Or(ser.loads(raw), Payload)
  }

  /** `data[f].(string)`: only text counts; anything else leaves the field nil. */
  function MapJson(data: Data, ser: Serializer, f: Field): Result<Json, Field> {
    if f in data && data[f].Str? then Or(ser.loads(data[f].text), f) else Ok(Null)
  }

  /** The keys that name the task, on a task otherwise blank. */
  function DecodeNames(data: Data): Result<TaskValue, Field> {
    var id :- MapString(data, Id, false);
    var name :- MapString(data, Name, false);
    var status :- MapInt(data, Status, false);
    var publishedAt :- MapTime(data, PublishedAt, false);
    Ok(TaskValue(id, name, publishedAt, ZERO_TIME, ZERO_TIME, status, status, 0, Null, Null, Stored(Null), 0, 0,
                 ZERO_TIME, []))
  }

  /** The optional times. */
  function DecodeTimes(t: TaskValue, data: Data): Result<TaskValue, Field> {
    var processedAt :- MapTime(data, ProcessedAt, true);
    var startedAt :- MapTime(data, StartedAt, true);
    var eta :- MapTime(data, Eta, true);
    var timeout :- MapDuration(data, Timeout, true);
    Ok(t.(processedAt := processedAt, startedAt := startedAt, eta := eta, timeout := timeout))
  }

  /** The keys `TaskFromPayload` reads up to the payload's presence. */
  function DecodeHead(data: Data): Result<TaskValue, Field> {
    var names :- DecodeNames(data);
    DecodeTimes(names, data)
  }

  /** The payload's presence, and the limits. */
  function DecodeLimits(t: TaskValue, data: Data): Result<TaskValue, Field> {
    var _ :- MapString(data, Payload, false);
    var maxRetries :- MapInt(data, MaxRetries, false);
    var ttl :- MapDuration(data, Ttl, false);
    var intervals :- MapIntervals(data);
    Ok(t.(maxRetries := maxRetries, ttl := ttl, intervals := intervals))
  }

  /** What the serializer reads. */
  function DecodeValues(t: TaskValue, data: Data, ser: Serializer): Result<TaskValue, Field> {
    var payload :- MapPayload(data, ser);
    var error :- MapJson(data, ser, Error);
    var result :- MapJson(data, ser, Result);
    Ok(t.(payload := payload, error := Stored(error), result := result))
  }

  /** The keys read from the payload's presence on, added to what was read before them. */
  function DecodeTail(head: TaskValue, data: Data, ser: Serializer): Result<TaskValue, Field> {
    var limited :- DecodeLimits(head, data);
    DecodeValues(limited, data, ser)
  }

  /** The first key `TaskFromPayload` cannot read, or the task. */
  function Decode(data: Data, ser: Serializer): Result<TaskValue, Field> {
    var head :- DecodeHead(data);
    DecodeTail(head, data, ser)
  }

  lemma NamesNeedKeys(data: Data)
    requires DecodeNames(data).Ok?
    ensures {Id, Name, Status, PublishedAt} <= data.Keys
  {
    assert MapString(data, Status, false).Ok? && MapString(data, PublishedAt, false).Ok?;
  }

  lemma LimitsNeedKeys(t: TaskValue, data: Data)
    requires DecodeLimits(t, data).Ok?
    ensures {Payload, MaxRetries, Ttl} <= data.Keys
  {
    assert MapString(data, MaxRetries, false).Ok? && MapString(data, Ttl, false).Ok?;
  }

  /** A task cannot be read without the keys that are not optional. */
  lemma RequiredKeys(data: Data, ser: Serializer)
    requires Decode(data, ser).Ok?
    ensures {Id, Name, Status, PublishedAt, Payload, MaxRetries, Ttl} <= data.Keys
  {
    NamesNeedKeys(data);
    LimitsNeedKeys(DecodeHead(data).value, data);
  }

  /** The loop of `TaskFromPayload` over the split interval text. */
  method ParseIntervals(raw: string) returns (r: Result<seq<Duration>, Field>)
    ensures r == Or(ReadIntervals(raw), RetryIntervals)
  {
    if raw == "" {
      return Ok([]);
    }
    var parts := Decimal.Split(raw);
    var intervals := new Duration[|parts|];
    for i := 0 to |parts|
      invariant ReadIntervalList(parts[..i]) == Some(intervals[..i])
    {
      assert parts[..i + 1][..i] == parts[..i];
      var value := Decimal.Parse(parts[i]);
      ghost var before := intervals[..i];
      if value.None? {
        UnreadablePrefix(parts, i + 1);
        return Err(RetryIntervals);
      }
      intervals[i] := Wrap(value.value * 1_000_000_000);
      assert intervals[..i + 1] == before + [intervals[i]];
    }
    assert parts[..|parts|] == parts && intervals[..|parts|] == intervals[..];
    r := Ok(intervals[..]);
  }

  lemma {:induction false} UnreadablePrefix(parts: seq<string>, i: nat)
    requires i <= |parts|
    requires ReadIntervalList(parts[..i]).None?
    ensures ReadIntervalList(parts).None?
    decreases |parts|
  {
    if i == |parts| {
      assert parts[..i] == parts;
    } else {
      assert parts[..|parts| - 1][..i] == parts[..i];
      UnreadablePrefix(parts[..|parts| - 1], i);
    }
  }

  method FillNames(t: Task, data: Data) returns (r: Result<(), Field>)
    requires t.Value() == TaskValue("", "", ZERO_TIME, ZERO_TIME, ZERO_TIME, WAITING, WAITING, 0, Null, Null,
                                    Stored(Null), 0, 0, ZERO_TIME, [])
    modifies t
    ensures r.Err? ==> DecodeNames(data) == Err(r.error)
    ensures r.Ok? ==> DecodeNames(data) == Ok(t.Value())
  {
    t.id :- MapString(data, Id, false);
    t.name :- MapString(data, Name, false);
    t.status :- MapInt(data, Status, false);
    t.oldStatus := t.status;
    t.publishedAt :- MapTime(data, PublishedAt, false);
    r := Ok(());
  }

  method FillTimes(t: Task, data: Data) returns (r: Result<(), Field>)
    modifies t
    ensures r.Err? ==> DecodeTimes(old(t.Value()), data) == Err(r.error)
    ensures r.Ok? ==> DecodeTimes(old(t.Value()), data) == Ok(t.Value())
  {
    t.processedAt :- MapTime(data, ProcessedAt, true);
    t.startedAt :- MapTime(data, StartedAt, true);
    t.eta :- MapTime(data, Eta, true);
    t.timeout :- MapDuration(data, Timeout, true);
    r := Ok(());
  }

  method FillLimits(t: Task, data: Data) returns (r: Result<string, Field>)
    modifies t
    ensures r.Err? ==> DecodeLimits(old(t.Value()), data) == Err(r.error)
    ensures r.Ok? ==> DecodeLimits(old(t.Value()), data) == Ok(t.Value()) && MapString(data, Payload, false) == r
  {
    var payload :- MapString(data, Payload, false);
    t.maxRetries :- MapInt(data, MaxRetries, false);
    t.ttl :- MapDuration(data, Ttl, false);
    var rawIntervals :- MapString(data, RetryIntervals, true);
    t.intervals :- ParseIntervals(rawIntervals);
    r := Ok(payload);
  }

  method FillValues(t: Task, payload: string, data: Data, ser: Serializer) returns (r: Result<(), Field>)
    requires MapString(data, Payload, false) == Ok(payload)
    modifies t
    ensures r.Err? ==> DecodeValues(old(t.Value()), data, ser) == Err(r.error)
    ensures r.Ok? ==> DecodeValues(old(t.Value()), data, ser) == Ok(t.Value())
  {
    t.payload :- Or(ser.loads(payload), Payload);
    var error :- MapJson(data, ser, Error);
    t.error := Stored(error);
    t.result :- MapJson(data, ser, Result);
    r := Ok(());
  }

  /** `TaskFromPayload`: a fresh task filled field by field, or the first key that cannot be read. */
  method TaskFromPayload(data: Data, ser: Serializer) returns (r: Result<Task, Field>)
    ensures r.Err? ==> Decode(data, ser) == Err(r.error)
    ensures r.Ok? ==> fresh(r.value) && Decode(data, ser) == Ok(r.value.Value())
  {
    var t := new Task.Zero();
    var _ :- FillNames(t, data);
    var _ :- FillTimes(t, data);
    var payload :- FillLimits(t, data);
    var _ :- FillValues(t, payload, data, ser);
    r := Ok(t);
  }
}
