/**
 What loading a saved task gives. A save is an HMSET, which merges the written fields into whatever the hash held, so
 the laws are about merged hashes; a first save is the merge into the empty hash.
 */
module CodecLaws {
  import opened Clock
  import opened Wrappers
  import opened Tasks
  import opened Codec
  import Decimal

  /** A field value as Redis keeps it. */
  function TextOf(v: Value): string {
    match v
    case Str(text) => text
    case Num(n) => Decimal.Print(n)
    case Bytes(bytes) => bytes
  }

  /** A map of fields once it has gone through HMSET: every value is text. */
  function Wire(d: Data): Data {
    map f | f in d :: Str(TextOf(d[f]))
  }

  /** The hash after `HMSET h (Serialize t)`. */
  function Saved(h: Data, t: TaskValue, ser: Serializer): Data
    requires Dumpable(t, ser)
  {
    h + Wire(Encode(t, ser))
  }

  /** The task a load starts from: every field Go's zero. */
  const BLANK: TaskValue := TaskValue("", "", ZERO_TIME, ZERO_TIME, ZERO_TIME, WAITING, WAITING, 0, Null, Null,
                                      Stored(Null), 0, 0, ZERO_TIME, [])

  /** A duration list cut to whole seconds. */
  function CutAll(ds: seq<Duration>): (r: seq<Duration>)
    ensures |r| == |ds|
  {
    seq(|ds|, i requires 0 <= i < |ds| => Cut(ds[i]))
  }

  function Later(kept: Time, written: Time): Time {
    if written == ZERO_TIME then kept else Floor(written)
  }

  /**
   The task that saving `t` over a hash holding `o` leaves: what `Serialize` writes is cut to whole seconds, what it
   leaves out (zero times, nil values, an empty interval list, an error that was itself loaded) stays as it was.
   */
  function Merged(o: TaskValue, t: TaskValue): TaskValue {
    TaskValue(t.id, t.name, Floor(t.publishedAt), Later(o.startedAt, t.startedAt), Later(o.processedAt, t.processedAt),
              t.status, t.status, t.maxRetries,
              if t.payload == Null then o.payload else t.payload,
              if t.result == Null then o.result else t.result,
              if t.error.Raised? then Stored(Text(t.error.message)) else o.error,
              Cut(t.ttl), Cut(t.timeout), Later(o.eta, t.eta),
              if t.intervals == [] then o.intervals else CutAll(t.intervals))
  }

  /** The in-memory task as a reader should see it: cut to whole seconds, a raised error as its text. */
  function Seen(t: TaskValue): TaskValue {
    t.(publishedAt := Floor(t.publishedAt), startedAt := Floor(t.startedAt), processedAt := Floor(t.processedAt),
       eta := Floor(t.eta), oldStatus := t.status, ttl := Cut(t.ttl), timeout := Cut(t.timeout),
       intervals := CutAll(t.intervals),
       error := if t.error.Raised? then Stored(Text(t.error.message)) else t.error)
  }

  // How each kind of field reads back

  lemma ReadPrintedTime(t: Time)
    requires IsInt64(Second(t))
    ensures ReadTime(Decimal.Print(Second(t))) == Some(Floor(t))
  {
    Decimal.ParsePrint(Second(t));
  }

  lemma ReadPrintedDuration(d: Duration)
    ensures Decimal.Parse(Decimal.Print(WholeSeconds(d))) == Some(WholeSeconds(d))
    ensures Wrap(WholeSeconds(d) * 1_000_000_000) == Cut(d)
    ensures ReadDuration(Decimal.Print(WholeSeconds(d))) == Some(Cut(d))
  {
    WholeSecondsBound(d);
    Decimal.ParsePrint(WholeSeconds(d));
    var cut: int := WholeSeconds(d) * 1_000_000_000;
    assert -0x8000_0000_0000_0000 <= cut < 0x8000_0000_0000_0000;
  }

  lemma ReadOneMore(parts: seq<string>, read: seq<Duration>, d: Duration)
    requires ReadIntervalList(parts) == Some(read)
    ensures ReadIntervalList(parts + [Decimal.Print(WholeSeconds(d))]) == Some(read + [Cut(d)])
  {
    ReadPrintedDuration(d);
    assert (parts + [Decimal.Print(WholeSeconds(d))])[..|parts|] == parts;
  }

  lemma OneMoreInterval(init: seq<Duration>, d: Duration)
    ensures IntervalTexts(init + [d]) == IntervalTexts(init) + [Decimal.Print(WholeSeconds(d))]
    ensures CutAll(init + [d]) == CutAll(init) + [Cut(d)]
  {
  }

  lemma {:induction false} ReadPrintedList(ds: seq<Duration>)
    ensures ReadIntervalList(IntervalTexts(ds)) == Some(CutAll(ds))
  {
    if ds != [] {
      var init, last := ds[..|ds| - 1], ds[|ds| - 1];
      ReadPrintedList(init);
      ReadOneMore(IntervalTexts(init), CutAll(init), last);
      OneMoreInterval(init, last);
      assert ds == init + [last];
    }
  }

  /** Interval lists of any length survive the comma-joined text, each cut to whole seconds. */
  lemma ReadPrintedIntervals(ds: seq<Duration>)
    requires ds != []
    ensures ReadIntervals(Decimal.Join(IntervalTexts(ds))) == Some(CutAll(ds))
  {
    var texts := IntervalTexts(ds);
    forall i | 0 <= i < |texts| ensures texts[i] != "" && ',' !in texts[i] {
      Decimal.ParsePrint(WholeSeconds(ds[i]));
    }
    Decimal.SplitJoin(texts);
    ReadPrintedList(ds);
    assert Decimal.Join(texts) != "" by {
      assert texts[0] != "";
      assert Decimal.Split("") == [""];
    }
  }

  // Loading, key by key

  /** Key `f` of `data` reads as the corresponding field of `t`. */
  predicate ReadAt(data: Data, ser: Serializer, t: TaskValue, f: Field) {
    match f
    case Id => MapString(data, f, false) == Ok(t.id)
    case Name => MapString(data, f, false) == Ok(t.name)
    case Status => MapInt(data, f, false) == Ok(t.status)
    case PublishedAt => MapTime(data, f, false) == Ok(t.publishedAt)
    case MaxRetries => MapInt(data, f, false) == Ok(t.maxRetries)
    case Ttl => MapDuration(data, f, false) == Ok(t.ttl)
    case Timeout => MapDuration(data, f, true) == Ok(t.timeout)
    case Eta => MapTime(data, f, true) == Ok(t.eta)
    case ProcessedAt => MapTime(data, f, true) == Ok(t.processedAt)
    case StartedAt => MapTime(data, f, true) == Ok(t.startedAt)
    case Payload => MapString(data, f, false).Ok? && MapPayload(data, ser) == Ok(t.payload)
    case Result => MapJson(data, ser, f) == Ok(t.result)
    case Error => t.error.Stored? && MapJson(data, ser, f) == Ok(t.error.value)
    case RetryIntervals => MapIntervals(data) == Ok(t.intervals)
  }

  predicate ReadsAs(data: Data, ser: Serializer, t: TaskValue) {
    t.oldStatus == t.status && forall f: Field :: ReadAt(data, ser, t, f)
  }

  /** A load gives `t` exactly when every key reads as its field of `t`. */
  lemma DecodeByKeys(data: Data, ser: Serializer, t: TaskValue)
    ensures Decode(data, ser) == Ok(t) <==> ReadsAs(data, ser, t)
  {
    if Decode(data, ser) == Ok(t) {
      HeadByKeys(data, ser, t);
      TailByKeys(data, ser, t);
      forall f: Field ensures ReadAt(data, ser, t, f) {
        assert f.Id? || f.Name? || f.Status? || f.PublishedAt? || f.MaxRetries? || f.Ttl? || f.Timeout?
            || f.Eta? || f.ProcessedAt? || f.StartedAt? || f.Payload? || f.Result? || f.Error? || f.RetryIntervals?;
      }
    }
    if ReadsAs(data, ser, t) {
      KeysGiveHead(data, ser, t);
      KeysGiveTail(data, ser, t, DecodeHead(data).value);
    }
  }

  lemma HeadByKeys(data: Data, ser: Serializer, t: TaskValue)
    requires Decode(data, ser) == Ok(t)
    ensures t.oldStatus == t.status && ReadAt(data, ser, t, Id) && ReadAt(data, ser, t, Name)
    ensures ReadAt(data, ser, t, Status) && ReadAt(data, ser, t, PublishedAt) && ReadAt(data, ser, t, ProcessedAt)
    ensures ReadAt(data, ser, t, StartedAt) && ReadAt(data, ser, t, Eta) && ReadAt(data, ser, t, Field.Timeout)
  {
  }

  lemma TailByKeys(data: Data, ser: Serializer, t: TaskValue)
    requires Decode(data, ser) == Ok(t)
    ensures ReadAt(data, ser, t, Payload) && ReadAt(data, ser, t, MaxRetries) && ReadAt(data, ser, t, Ttl)
    ensures ReadAt(data, ser, t, RetryIntervals) && ReadAt(data, ser, t, Error) && ReadAt(data, ser, t, Result)
  {
  }

  lemma KeysGiveHead(data: Data, ser: Serializer, t: TaskValue)
    requires ReadsAs(data, ser, t)
    ensures DecodeHead(data) == Ok(t.(maxRetries := 0, payload := Null, result := Null, error := Stored(Null),
                                       ttl := 0, intervals := []))
  {
    assert ReadAt(data, ser, t, Id) && ReadAt(data, ser, t, Name) && ReadAt(data, ser, t, Status);
    assert ReadAt(data, ser, t, PublishedAt) && ReadAt(data, ser, t, ProcessedAt) && ReadAt(data, ser, t, StartedAt);
    assert ReadAt(data, ser, t, Eta) && ReadAt(data, ser, t, Field.Timeout);
  }

  lemma KeysGiveTail(data: Data, ser: Serializer, t: TaskValue, head: TaskValue)
    requires ReadsAs(data, ser, t)
    ensures DecodeTail(head, data, ser) ==
            Ok(head.(maxRetries := t.maxRetries, ttl := t.ttl, intervals := t.intervals, payload := t.payload,
                     error := t.error, result := t.result))
  {
    assert ReadAt(data, ser, t, Payload) && ReadAt(data, ser, t, MaxRetries) && ReadAt(data, ser, t, Ttl);
    assert ReadAt(data, ser, t, RetryIntervals) && ReadAt(data, ser, t, Error) && ReadAt(data, ser, t, Result);
  }

  /** Key `f` of `data` is what saving `t` over `h` leaves there. */
  predicate SavedAt(data: Data, h: Data, t: TaskValue, ser: Serializer, f: Field)
    requires Dumpable(t, ser)
  {
    match Written(t, ser, f)
    case Some(v) => f in data && data[f] == Str(TextOf(v))
    case None => (f in data <==> f in h) && (f in h ==> data[f] == h[f])
  }

  lemma SaveOverwrites(h: Data, t: TaskValue, ser: Serializer, f: Field)
    requires Dumpable(t, ser)
    ensures SavedAt(Saved(h, t, ser), h, t, ser, f)
  {
    assert f in Encode(t, ser) <==> Written(t, ser, f).Some?;
  }

  lemma WrittenNumbers(data: Data, h: Data, o: TaskValue, t: TaskValue, ser: Serializer, f: Field)
    requires Dumpable(t, ser) && Representable(t) && SavedAt(data, h, t, ser, f)
    requires f in {Status, PublishedAt, MaxRetries, Ttl, Field.Timeout}
    ensures ReadAt(data, ser, Merged(o, t), f)
  {
    Decimal.ParsePrint(t.status);
    Decimal.ParsePrint(t.maxRetries);
    ReadPrintedTime(t.publishedAt);
    ReadPrintedDuration(t.ttl);
    ReadPrintedDuration(t.timeout);
  }

  lemma WrittenTimes(data: Data, h: Data, o: TaskValue, t: TaskValue, ser: Serializer, f: Field)
    requires Dumpable(t, ser) && Representable(t) && SavedAt(data, h, t, ser, f)
    requires f in {Eta, ProcessedAt, StartedAt} && Written(t, ser, f).Some?
    ensures ReadAt(data, ser, Merged(o, t), f)
  {
    ReadPrintedTime(t.eta);
    ReadPrintedTime(t.processedAt);
    ReadPrintedTime(t.startedAt);
  }

  lemma WrittenTexts(data: Data, h: Data, o: TaskValue, t: TaskValue, ser: Serializer, f: Field)
    requires ser.Lawful() && Dumpable(t, ser) && SavedAt(data, h, t, ser, f)
    requires f in {Id, Name, Payload, Result, Error, RetryIntervals} && Written(t, ser, f).Some?
    ensures ReadAt(data, ser, Merged(o, t), f)
  {
    if f == RetryIntervals {
      ReadPrintedIntervals(t.intervals);
    }
  }

  /** A key left out keeps reading as it did. */
  lemma KeptAt(data: Data, h: Data, o: TaskValue, t: TaskValue, ser: Serializer, f: Field)
    requires Dumpable(t, ser) && SavedAt(data, h, t, ser, f) && Written(t, ser, f).None?
    requires ReadAt(h, ser, o, f)
    ensures ReadAt(data, ser, Merged(o, t), f)
  {
  }

  /** The hash holds `o`, or it is empty and `o` is blank. */
  predicate Holds(h: Data, o: TaskValue, ser: Serializer) {
    Decode(h, ser) == Ok(o) || (h == map[] && o == BLANK)
  }

  /** Loading commutes with merging: the merged hash decodes to the merge of the tasks. */
  lemma LoadAfterSave(h: Data, o: TaskValue, t: TaskValue, ser: Serializer)
    requires ser.Lawful() && Dumpable(t, ser) && Representable(t) && Holds(h, o, ser)
    requires t.payload != Null || h != map[]
    ensures Decode(Saved(h, t, ser), ser) == Ok(Merged(o, t))
  {
    var data := Saved(h, t, ser);
    forall f: Field ensures ReadAt(data, ser, Merged(o, t), f) {
      MergeAt(h, o, t, ser, f);
    }
    DecodeByKeys(data, ser, Merged(o, t));
  }

  lemma MergeAt(h: Data, o: TaskValue, t: TaskValue, ser: Serializer, f: Field)
    requires ser.Lawful() && Dumpable(t, ser) && Representable(t) && Holds(h, o, ser)
    requires t.payload != Null || h != map[]
    ensures ReadAt(Saved(h, t, ser), ser, Merged(o, t), f)
  {
    var data := Saved(h, t, ser);
    SaveOverwrites(h, t, ser, f);
    if Written(t, ser, f).None? {
      HeldAt(h, o, ser, f);
      KeptAt(data, h, o, t, ser, f);
    } else if f in {Status, PublishedAt, MaxRetries, Ttl, Field.Timeout} {
      WrittenNumbers(data, h, o, t, ser, f);
    } else if f in {Eta, ProcessedAt, StartedAt} {
      WrittenTimes(data, h, o, t, ser, f);
    } else {
      WrittenTexts(data, h, o, t, ser, f);
    }
  }

  lemma HeldAt(h: Data, o: TaskValue, ser: Serializer, f: Field)
    requires Holds(h, o, ser)
    requires h == map[] ==> f in {Eta, ProcessedAt, StartedAt, Result, Error, RetryIntervals}
    ensures ReadAt(h, ser, o, f)
  {
    if h != map[] || o != BLANK {
      DecodeByKeys(h, ser, o);
    } else {
      assert f !in h;
    }
  }

  lemma NoPayload(data: Data, ser: Serializer)
    requires Payload !in data
    ensures Decode(data, ser).Err?
  {
  }

  /** The first save of a task can be loaded back exactly when its payload is not nil. */
  lemma FirstLoad(t: TaskValue, ser: Serializer)
    requires ser.Lawful() && Dumpable(t, ser) && Representable(t)
    ensures t.payload != Null ==> Decode(Saved(map[], t, ser), ser) == Ok(Merged(BLANK, t))
    ensures t.payload == Null ==> Decode(Saved(map[], t, ser), ser).Err?
  {
    var data := Saved(map[], t, ser);
    if t.payload != Null {
      LoadAfterSave(map[], BLANK, t, ser);
    } else {
      SaveOverwrites(map[], t, ser, Payload);
      NoPayload(data, ser);
    }
  }

  /** The task a save must not leave stale: everything `Serialize` would leave out agrees with what the hash holds. */
  predicate Current(o: TaskValue, t: TaskValue) {
    && (t.eta == ZERO_TIME ==> o.eta == ZERO_TIME)
    && (t.startedAt == ZERO_TIME ==> o.startedAt == ZERO_TIME)
    && (t.processedAt == ZERO_TIME ==> o.processedAt == ZERO_TIME)
    && (t.payload == Null ==> o.payload == Null)
    && (t.result == Null ==> o.result == Null)
    && (t.intervals == [] ==> o.intervals == [])
    && (t.error.Stored? ==> o.error == t.error)
  }

  lemma MergedIsSeen(o: TaskValue, t: TaskValue)
    ensures Merged(o, t) == Seen(t) <==> Current(o, t)
  {
    assert Floor(ZERO_TIME) == ZERO_TIME;
    assert t.intervals == [] ==> CutAll(t.intervals) == [];
  }

  /** A save is faithful exactly when no key it leaves out holds something the task in memory no longer has. */
  lemma SaveFaithful(h: Data, o: TaskValue, t: TaskValue, ser: Serializer)
    requires ser.Lawful() && Dumpable(t, ser) && Representable(t) && Holds(h, o, ser)
    requires t.payload != Null || h != map[]
    ensures Decode(Saved(h, t, ser), ser) == Ok(Seen(t)) <==> Current(o, t)
  {
    LoadAfterSave(h, o, t, ser);
    MergedIsSeen(o, t);
  }

  /**
   The round trip through a fresh hash gives the task cut to whole seconds for exactly the tasks whose payload is not
   nil and whose error was not itself read from a hash; a second trip over the same hash changes nothing.
   */
  lemma RoundTrip(t: TaskValue, ser: Serializer)
    requires ser.Lawful() && Dumpable(t, ser) && Representable(t)
    ensures Decode(Saved(map[], t, ser), ser) == Ok(Seen(t)) <==>
            t.payload != Null && (t.error.Raised? || t.error == Stored(Null))
    ensures t.payload != Null ==>
              var h := Saved(map[], t, ser);
              var again := Merged(BLANK, t);
              Dumpable(again, ser) && Decode(h, ser) == Ok(again) && Decode(Saved(h, again, ser), ser) == Ok(again)
  {
    FirstLoad(t, ser);
    MergedIsSeen(BLANK, t);
    if t.payload != Null {
      var again := Merged(BLANK, t);
      SeenTwice(t);
      LoadAfterSave(Saved(map[], t, ser), again, again, ser);
      MergedIsSeen(again, again);
    }
  }

  lemma CutAllTwice(ds: seq<Duration>)
    ensures CutAll(CutAll(ds)) == CutAll(ds)
  {
    forall i | 0 <= i < |ds| ensures Cut(Cut(ds[i])) == Cut(ds[i]) {
      CutTwice(ds[i]);
    }
  }

  lemma CutTwice(d: Duration)
    ensures Cut(Cut(d)) == Cut(d)
  {
  }

  /** A loaded task is already cut: seeing it again changes nothing, and it stays representable. */
  lemma SeenTwice(t: TaskValue)
    requires Representable(t)
    ensures Seen(Merged(BLANK, t)) == Merged(BLANK, t) && Representable(Merged(BLANK, t))
  {
    CutAllTwice(t.intervals);
    CutTwice(t.ttl);
    CutTwice(t.timeout);
    assert CutAll([]) == [];
  }

  /** Without Redis in between, the bytes of a raised error are not text, so the error alone is lost. */
  lemma DirectTrip(t: TaskValue, ser: Serializer)
    requires ser.Lawful() && Dumpable(t, ser) && Representable(t)
    requires t.payload != Null
    ensures Decode(Encode(t, ser), ser) == Ok(Merged(BLANK, t).(error := Stored(Null)))
  {
    var raw, wired := Encode(t, ser), Saved(map[], t, ser);
    var loaded := Merged(BLANK, t);
    LoadAfterSave(map[], BLANK, t, ser);
    DecodeByKeys(wired, ser, loaded);
    forall f: Field ensures ReadAt(raw, ser, loaded.(error := Stored(Null)), f) {
      assert ReadAt(wired, ser, loaded, f);
      assert f in raw <==> Written(t, ser, f).Some?;
      SameReading(raw, wired, ser, loaded, f);
    }
    DecodeByKeys(raw, ser, loaded.(error := Stored(Null)));
  }

  lemma SameReading(raw: Data, wired: Data, ser: Serializer, t: TaskValue, f: Field)
    requires (f in raw <==> f in wired) && (f in raw ==> wired[f] == Str(TextOf(raw[f])))
    requires f == Error ==> f in raw ==> raw[f].Bytes?
    requires f != Error ==> f in raw ==> !raw[f].Bytes?
    requires f == Result ==> f in raw ==> raw[f].Str?
    requires ReadAt(wired, ser, t, f)
    ensures ReadAt(raw, ser, t.(error := Stored(Null)), f)
  {
    if f == Error {
    } else {
      assert forall optional :: MapString(raw, f, optional) == MapString(wired, f, optional);
    }
  }

  // The mover's write-back

  /** Key `f`, when the hash has it, does not read as unset. */
  predicate TidyAt(h: Data, o: TaskValue, f: Field) {
    match f
    case Timeout => f in h
    case Eta => f in h ==> o.eta != ZERO_TIME
    case StartedAt => f in h ==> o.startedAt != ZERO_TIME
    case ProcessedAt => f in h ==> o.processedAt != ZERO_TIME
    case Result => f in h ==> o.result != Null
    case Error => f in h ==> o.error != Stored(Null)
    case RetryIntervals => f in h ==> o.intervals != []
    case _ => true
  }

  /** No optional key of the hash holds a value that reads as unset. */
  predicate Tidy(h: Data, o: TaskValue) {
    forall f: Field :: TidyAt(h, o, f)
  }

  /** The task left when a whole hash holding `p` is written over one holding `o`. */
  function Overlaid(o: TaskValue, p: TaskValue): TaskValue {
    p.(eta := if p.eta == ZERO_TIME then o.eta else p.eta,
       startedAt := if p.startedAt == ZERO_TIME then o.startedAt else p.startedAt,
       processedAt := if p.processedAt == ZERO_TIME then o.processedAt else p.processedAt,
       result := if p.result == Null then o.result else p.result,
       error := if p.error == Stored(Null) then o.error else p.error,
       intervals := if p.intervals == [] then o.intervals else p.intervals)
  }

  /** Writing a snapshot back over a hash that has changed since: the snapshot wins wherever it holds a key. */
  lemma LoadAfterWriteBack(h: Data, o: TaskValue, snapshot: Data, p: TaskValue, ser: Serializer)
    requires Decode(h, ser) == Ok(o) && Decode(snapshot, ser) == Ok(p) && Tidy(snapshot, p)
    ensures Decode(h + snapshot, ser) == Ok(Overlaid(o, p))
  {
    DecodeByKeys(h, ser, o);
    DecodeByKeys(snapshot, ser, p);
    forall f: Field ensures ReadAt(h + snapshot, ser, Overlaid(o, p), f) {
      assert ReadAt(h, ser, o, f) && ReadAt(snapshot, ser, p, f) && TidyAt(snapshot, p, f);
      WriteBackAt(h + snapshot, h, o, snapshot, p, ser, f);
    }
    DecodeByKeys(h + snapshot, ser, Overlaid(o, p));
  }

  lemma WriteBackAt(data: Data, h: Data, o: TaskValue, snapshot: Data, p: TaskValue, ser: Serializer, f: Field)
    requires ReadAt(h, ser, o, f) && ReadAt(snapshot, ser, p, f) && TidyAt(snapshot, p, f)
    requires f in data <==> f in h || f in snapshot
    requires f in data ==> data[f] == if f in snapshot then snapshot[f] else h[f]
    ensures ReadAt(data, ser, Overlaid(o, p), f)
  {
  }

  /** A save keeps the hash tidy, the first second of year 1 apart: there a set time is cut to Go's zero time. */
  lemma SaveKeepsTidy(h: Data, o: TaskValue, t: TaskValue, ser: Serializer)
    requires Dumpable(t, ser) && (Tidy(h, o) || (h == map[] && o == BLANK))
    requires forall x :: x in {t.eta, t.startedAt, t.processedAt} && x != ZERO_TIME ==> Floor(x) != ZERO_TIME
    ensures Tidy(Saved(h, t, ser), Merged(o, t))
  {
    forall f: Field ensures TidyAt(Saved(h, t, ser), Merged(o, t), f) {
      SaveOverwrites(h, t, ser, f);
      assert Tidy(h, o) ==> TidyAt(h, o, f);
      SavedTidyAt(Saved(h, t, ser), h, o, t, ser, f);
    }
  }

  lemma SavedTidyAt(data: Data, h: Data, o: TaskValue, t: TaskValue, ser: Serializer, f: Field)
    requires Dumpable(t, ser) && SavedAt(data, h, t, ser, f) && (TidyAt(h, o, f) || f !in h)
    requires t.eta == ZERO_TIME || Floor(t.eta) != ZERO_TIME
    requires t.startedAt == ZERO_TIME || Floor(t.startedAt) != ZERO_TIME
    requires t.processedAt == ZERO_TIME || Floor(t.processedAt) != ZERO_TIME
    ensures TidyAt(data, Merged(o, t), f)
  {
  }
}
