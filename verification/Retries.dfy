/** The retry schedule holds of the consumer and the protocol: a failing delivery is the same in all three. */
module Retries {
  import opened Clock
  import opened Wrappers
  import opened Tasks
  import opened CodecLaws
  import opened Redis
  import opened Lifecycle
  import Conformance
  import Consumers
  import Deliveries
  import Handlers
  import Protocol

  /** In memory: failing and then taking a retry is what `handleError` makes of the error. */
  lemma FailureIsSettled(l: Life, now: Time, message: string)
    requires Sound(now) && l.task.maxRetries >= 0
    ensures var failed := Step(l, Fail(now, message));
            Deliveries.Settle(l.task, Some(Fault(message)), now) ==
            if l.task.maxRetries > 0 then Step(failed, Retry(now)).task else failed.task
  {
  }

  /** A failing delivery of the schedule: the settled task in memory, and what its two saves leave in the hash. */
  lemma DeliveredIsSettled(l: Life, d: Failing)
    requires Queued(l) && SoundFailing(d)
    ensures var p := l.stored.Processing(d.start);
            var t := Deliveries.Settle(p, Some(Fault(d.message)), d.end);
            Delivered(l, d).task == t && Delivered(l, d).stored == Merged(Merged(l.stored, p), t)
  {
    ActsAreSteps(l, l.stored.maxRetries > 0, d);
    FailureIsSettled(Step(Step(Step(l, Load), Start(d.start)), Save), d.end, d.message);
  }

  /**
   In the protocol: a failing delivery with retries left, run through the handler's call, leaves the hash the schedule
   speaks of, and puts the id where the schedule's next ETA sends it.
   */
  lemma FailingRunFollows(s: Protocol.State, key: nat, l: Life, d: Failing, ms: seq<Handlers.Middleware>,
                          more: seq<nat>, heard: Time)
    requires Queued(l) && SoundFailing(d) && l.stored.maxRetries > 0 && l.stored.oldStatus != SUCCEEDED
    requires Conformance.JustLoaded(s, key, l.stored) && s.clock == d.start <= d.end <= heard
    requires l.stored.id in s.db.hashes && s.db.hashes[l.stored.id] == Cell(l.stored, None)
    ensures var script := Handlers.Script(Handlers.Done(Some(Fault(d.message))), more, 0);
            var es := Conformance.Handling(key, l.stored, ms, script, Consumers.Times(d.start, d.end, heard));
            && Protocol.Legal(s, es)
            && var db, next := Protocol.Replay(s, es).db, Delivered(l, d);
               && l.stored.id in db.hashes && db.hashes[l.stored.id] == Cell(next.stored, None)
               && match Destination(next.task.eta, d.end)
                  case Back => db.list == s.db.list + [l.stored.id] && db.delayed == s.db.delayed
                  case Front => db.list == [l.stored.id] + s.db.list && db.delayed == s.db.delayed
                  case At(score) => db.list == s.db.list && db.delayed == s.db.delayed[l.stored.id := score]
  {
    var script := Handlers.Script(Handlers.Done(Some(Fault(d.message))), more, 0);
    Conformance.HandlingDb(s, key, l.stored, ms, script, Consumers.Times(d.start, d.end, heard));
    DeliveredIsSettled(l, d);
    var p := l.stored.Processing(d.start);
    TwoSaves(s.db, l.stored, p, Deliveries.Settle(p, Some(Fault(d.message)), d.end), d.start, d.end);
  }

  lemma TwoSaves(db: Protocol.Db, o: TaskValue, p: TaskValue, t: TaskValue, start: Time, end: Time)
    requires o.id in db.hashes && db.hashes[o.id] == Cell(o, None) && p.id == o.id && t.id == o.id
    requires p.maxRetries > 0 && p.oldStatus != SUCCEEDED && p.status == PROCESSING
    ensures var db' := Conformance.ClosedDb(Protocol.Saved(db, p, Protocol.Ttl(p), start), t, true, end);
            && o.id in db'.hashes && db'.hashes[o.id] == Cell(Merged(Merged(o, p), t), None)
            && db' == Push(db.(hashes := db'.hashes), o.id, Destination(t.eta, end))
  {
  }
}
