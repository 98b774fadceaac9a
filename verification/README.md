# Bokchoy, modelled and verified in Dafny

Bokchoy is a background task queue over Redis. Each queue is three Redis structures: a list of waiting ids, a sorted
set of delayed ids scored by the second of their ETA, and one hash per task. Workers pop ids, run handlers, and retry;
a *mover* turns delayed ids into waiting ones. The project models this at three levels and proves what ties them.

**Values and objects.** `Clock`, `Decimal`, `Tasks`, `Codec` and `CodecLaws` model tasks, the `Task` object and its
marks, and the codec: `Serialize` leaves fields out, HMSET *merges* what is written into what the hash held, and
`TaskFromPayload` reads text back. `Lifecycle` follows one task and its hash through any sequence of loads, marks,
retries and saves; `Hooks` says which hooks fire and counts completions.

**Programs.** `Flatten`, `Broker`, `Queues`, `Handlers` and `Consumers` are the imperative code: the Redis broker over a
keyspace with prefixes, the queue, middleware chains over aliased requests, and the consumer with `handleError`.
`Panics` says what becomes of a panicking handler under every order of middlewares. `Crawl` is the crawler example.

**Protocol.** `Deliveries` interleaves the worker, the timeout and the handler's goroutine on one shared task.
`Protocol` interleaves publishers, any number of workers, `Cancel`, and the mover at the granularity of single Redis
commands; the mover's range read, payload snapshot and transaction are three separate events. `Accounts` is its
invariant, `Safety` and `Runs` show it is kept, and `Conservation`, `Draining`, `Cancellation`, `Timeliness`,
`Countdown`, `Expiries`, `Delays` and `Ordering` are the theorems over whole runs. `Losses` and `LostCancels` give runs in which a
task is lost or a cancellation does not hold. `Movers` lets
several processes run a mover each over the same delayed set. `Refinement` shows that the broker's commands on hashes
of text do what the protocol's steps do to tasks, and `Conformance` that publishing, popping, a tick and the handling of
a request are runs of the protocol. `Retries` carries the retry schedule from one task and its hash to the consumer and
to those runs.

A run is *orderly* (`Protocol.Orderly`) if every ZADD made between a mover's read and its transaction falls after the
mover's range, tasks are published with a payload and no negative retries, and `Cancel` sets no expiry on a task that
is still queued. `Conservation.PromptRunsAreOrderly` gives a condition for the first of these that does not speak of the
mover: every ZADD is made before the second of its score.

Where the code and its documentation or comments disagree, the model follows the code:

- The repository's `README.md` (166-175) says a negative countdown publishes a task in front of others. BRPOP pops the
  end RPUSH pushes to, so such a task comes out after every immediate one (`Ordering.ListShowsArrivals`).
- `broker_redis.go:219` clears the range only after its results are pushed, to avoid data loss. A task filed within its
  ETA's second can still be cleared unpushed (`Losses.PublishedIdIsLost`), and with a prefix nothing is cleared at all
  (`Refinement.PrefixedMoverClearsNothing`).
- `middleware/recoverer.go:14-15` promises the panic's error in the request context. `suite_test.go:67-68` and
  `examples/crawler/main.go:74-75` register `Recoverer` on different sides of middlewares that make new requests. After
  one of those, `Recoverer` turns a panic into a success (`Panics.PanicVisibility`).
- A task waiting for its last retry already counts as finished, so `OnComplete` hooks fire three times for an
  always-failing task (`Hooks.CompletesThreeTimes`), twice in a last retry that succeeds (`Hooks.SuccessCompletes`), and
  a `Cancel` then puts an expiry on a queued task
  (`Losses.CancelKeepsReference`, `LostCancels.CanceledTaskIsLost`).
- A `Cancel` of a due task can be undone by the mover (`Cancellation.CancelSafety`, `LostCancels.CanceledTaskStarts`).
- A panic no `Recoverer` catches may leave its task stored as succeeded, and after a timeout it does not end the process
  (`Panics.PanicUnrecovered`, `Deliveries.UnrecoveredPanic`).

## Model

| member | source | states |
|---|---|---|
| `Clock.WholeSecondsBound` | task.go:284-285 | `int(d.Seconds())` is within a second of the duration and never beyond it, for negative durations too |
| `Decimal.ParsePrint` | utils.go:71-103 | a printed integer reads back as itself exactly when it fits 64 bits, and never holds a comma |
| `Decimal.PrintCanonical` | utils.go:80-81 | a printed integer is a minus sign for negative numbers only, then digits without leading zeros |
| `Decimal.ParseReads` | utils.go:93-97 | what can be read: a sign at most, then digits and nothing else, within 64 bits; the sign read is the number's |
| `Decimal.SplitJoin` | task.go:332-338 | splitting undoes joining for interval lists of any length |
| `Decimal.JoinSplit` | task.go:137-149 | joining undoes splitting for every text |
| `Tasks.ReverseAt` | utils.go:19-29 | the reversed list read at `i` is the list read at `i` from the end |
| `Tasks.ReverseDurations` | utils.go:19-29 | the index loop produces the reversed list |
| `Tasks.RetryEtaInterval` | task.go:187-203 | with `m` retries left the next ETA is the old one if there are at most `m` intervals, else now plus the interval `m` places before the last |
| `Tasks.Task.RetryETA` | task.go:187-203 | the method computes that ETA, also written out over the intervals; its last fallback is dead code |
| `Tasks.Task.IsFinished` | task.go:356-370 | a task that succeeded, now or when loaded, is finished; any other exactly when it failed, now or when loaded, with no retries left |
| `Tasks.Task.New` | task.go:44-62 | a new task is waiting, with its payload, retries and TTL and nothing else set |
| `Tasks.Task.MarkAsProcessing` | task.go:350-353 | sets the start time and the status, and nothing else |
| `Tasks.Task.MarkAsSucceeded` | task.go:398-402 | sets the processing time and the status, and nothing else |
| `Tasks.Task.MarkAsFailed` | task.go:405-412 | also sets the error, unless there is none |
| `Tasks.Task.MarkAsCanceled` | task.go:415-418 | sets the processing time and the status, and nothing else |
| `Codec.Serialize` | task.go:275-342 | the step-by-step map equals the field-by-field specification, or fails exactly when the serializer cannot write a value |
| `Codec.PrintIntervals` | task.go:332-336 | the interval loop prints whole seconds in order |
| `Codec.ParseIntervals` | task.go:137-149 | the parsing loop reads the whole list or fails if any part is unreadable |
| `Codec.TaskFromPayload` | task.go:65-175 | filling the task field by field gives the decoded task, or the first key that cannot be read |
| `Codec.RequiredKeys` | utils.go:71-75 | no task can be read from a hash without its id, name, status, publication time, payload, retries and TTL |
| `CodecLaws.LoadAfterSave` | task.go:65-175 | decoding the hash after HMSET merged a serialized task over it gives the merge of the two tasks, field by field |
| `CodecLaws.SaveFaithful` | queue.go:339-364 | a save loads back as the task in memory cut to whole seconds if and only if no field it leaves out is stale in the hash |
| `CodecLaws.RoundTrip` | task.go:275-342 | the trip through a fresh hash gives the task cut to whole seconds if and only if the payload is not nil and the error was not itself loaded; every further trip is the identity |
| `CodecLaws.FirstLoad` | task.go:112-115 | a first save can be loaded back exactly when the payload is not nil |
| `CodecLaws.DirectTrip` | task.go:318-326 | without Redis in between, the error alone is lost, because its bytes are not text |
| `CodecLaws.LoadAfterWriteBack` | broker_redis.go:206-216 | writing a whole payload back over a hash that changed meanwhile: the payload wins wherever it has a key |
| `CodecLaws.SaveKeepsTidy` | task.go:288-340 | no save leaves a key that reads as unset |
| `Lifecycle.MergedHashFaithful` | queue.go:339-364 | after any run of loads, marks, retries, results and saves of one task, the hash left by a save loads as the task in memory cut to whole seconds |
| `Lifecycle.RawHashFaithful` | broker_redis.go:423-444 | the same on the hash of texts, through `Serialize`, HMSET and `TaskFromPayload` |
| `Lifecycle.NewTaskHashFaithful` | queue.go:368-419 | the same from the first save of a task `NewTask` made, with no assumption on its hash |
| `Lifecycle.ResultTakenBack` | task.go:309-316 | setting a result back to nil leaves the stored one behind, if and only if there was one |
| `Lifecycle.RetrySchedule` | task.go:187-203 | an always-failing task with N retries and L intervals runs N+1 times; the first N-L retries inherit the ETA, the others wait for the last intervals in list order |
| `Lifecycle.DeliveredOnce` | consumer.go:136-153 | one failing delivery through the hash: a retry less, the next ETA, the same intervals |
| `Lifecycle.PublishedQueued` | queue.go:408-419 | a first publication satisfies what the schedule asks |
| `Retries.FailureIsSettled` | consumer.go:133-148 | in memory, `handleError` of a failure is the schedule's failure and, with retries left, its retry |
| `Retries.DeliveredIsSettled` | consumer.go:105-160 | a failing delivery of the schedule is the consumer's settlement, and its hash what the two saves merge to |
| `Retries.FailingRunFollows` | consumer.go:147-153 | in the protocol, the handling of a failing request with retries left leaves the hash the schedule speaks of, and the id where the schedule's next ETA sends it |
| `Hooks.HookTable.FireEvents` | queue.go:288-329 | the start hooks of a processing task, the success hooks of a succeeded one, the failure hooks of a failed or canceled one, then the completion hooks of a finished one, in order, up to and with the first that fails |
| `Hooks.CompletesThreeTimes` | queue.go:318-326 | an always-failing task is found finished three times if published with any retry, once if with none |
| `Hooks.SuccessCompletes` | queue.go:318-326 | a delivery that succeeds is found finished once, and twice exactly if the task was loaded as finished, as a last retry is |
| `Redis.ListRefinesTwoEnds` | broker_redis.go:247 | under any pushes and pops the list is a queue shown backwards followed by a stack, and pops return what that pair returns |
| `Ordering.ListShowsArrivals` | broker_redis.go:472-478 | in every reachable state the list is past-ETA ids in reverse arrival order, then immediate ids in arrival order; a pop takes the newest immediate id, else the oldest past-ETA one |
| `Ordering.RunOnList` | broker_redis.go:206-216 | the protocol's events do to the list exactly what their list commands do |
| `Deliveries.FirstHandleErrorWins` | consumer.go:105-160 | in every interleaving the first `handleError` decides the task, and later events change nothing of it |
| `Deliveries.SettledFields` | consumer.go:113-148 | the settlement field by field: status, processing time, error, retries, and for a failure with retries left an ETA now plus the interval as many places from the end as there were retries |
| `Deliveries.SettledForGood` | consumer.go:109-111 | once settled, no late outcome, timeout or message changes the task |
| `Deliveries.OneSettlement` | consumer.go:105-160 | at most one last save or one republication per delivery, never both; retries drop by at most one, and by one exactly if it was republished |
| `Deliveries.TimeoutThenOutcome` | consumer.go:87-94 | after a timeout the task stays canceled whatever the goroutine does later |
| `Deliveries.TimeoutFromBegin` | consumer.go:48 | in every interleaving, as long as the worker has heard nothing, it can take the timeout exactly once the task's timeout has passed since the handler's start |
| `Deliveries.PanicSettles` | consumer.go:103-111 | a recovered panic skips the goroutine's settlement; the worker settles it as a failure if the error was left where it looks, else as a success |
| `Deliveries.UnrecoveredPanic` | consumer.go:60-94 | after a panic nobody recovers the task is processing until the worker hears a nil error, succeeded once it has, canceled if its timeout came first (then the deferred send never completes and the process lives); it is republished only in the last case, and never fails |
| `Runs.StepKeeps` | broker_redis.go:184-235 | every event of an orderly run keeps the invariant of the protocol |
| `Runs.LedgerAfter` | consumer.go:173-217 | the invariant holds after every orderly run |
| `Conservation.EachIdInOnePlace` | broker_redis.go:462-485 | in every state an orderly run reaches, each published id is in exactly one of list, delayed set, one hand, settled ids, and once; no other id is anywhere |
| `Conservation.ReferencesLive` | queue.go:349-353 | every waiting or delayed id has a loadable hash holding that id, which never expires |
| `Conservation.ExpiringNeverRequeued` | queue.go:349-353 | an expiry is only set on a task in no queue, and its id never enters the list or the delayed set again |
| `Expiries.SucceededExpires` | queue.go:349-353 | in every state an orderly run reaches, a hash that says its task succeeded expires, if its TTL has a whole second |
| `Expiries.SuccessIsSaved` | queue.go:349-353 | the last save of a successful delivery settles the id, stores the success, and sets the expiry to the TTL's whole seconds after the save |
| `Conservation.MoverExactness` | broker_redis.go:194-226 | the transaction clears exactly the ids it pushes, each pushed once |
| `Conservation.WindowExactness` | broker_redis.go:194-226 | whatever publishers, workers and cancels do between the mover's read and its transaction, it will clear exactly what it read if and only if no ZADD in between fell into the range |
| `Conservation.PromptRunsAreOrderly` | broker_redis.go:477-483 | runs whose ZADDs are made before the second of their score are orderly, whatever the mover does |
| `Conservation.LateZaddIsClear` | broker_redis.go:477-483 | a score whose second is after the clock's is always clear of the mover |
| `Conservation.PromptZaddIsClear` | queue.go:386-390 | an ETA pushed before the second it falls into is clear of the mover |
| `Conservation.UnclearZaddIsLost` | broker_redis.go:219-220 | an id that entered the range unseen is dropped by the transaction and is nowhere afterwards |
| `Losses.PublishedIdIsLost` | broker_redis.go:194-226 | a concrete run from the empty queue in which a published id is lost |
| `Losses.CancelKeepsReference` | queue.go:193-207 | in every state an orderly run reaches, `Cancel` keeps a waiting id's hash from expiring exactly unless the task it loaded had failed, has no retries left, and asks for a TTL |
| `LostCancels.CanceledTaskIsLost` | queue.go:349-353 | a concrete run from the empty queue: one retry, a failure, a cancel while the retry waits, the hash expires, and the id is nowhere |
| `Losses.ExpiredIsLost` | broker_redis.go:284-291 | a popped id whose hash cannot be loaded is dropped without being settled, and only then |
| `Draining.HandlerRunsBounded` | consumer.go:136-153 | a task published with N retries has its handler started at most N+1 times in any orderly run |
| `Draining.WorkIsBounded` | consumer.go:173-217 | a measure over remaining runs and distance to settlement, summed over all tasks, falls on every working event, so their number is bounded |
| `Draining.NeverStuck` | consumer.go:235-266 | while an id is unsettled, a few orderly events bring some id forward |
| `Draining.CanSettleAll` | consumer.go:235-266 | from every reachable state some orderly run settles every published id |
| `Cancellation.CanceledIsAbsorbing` | consumer.go:186-187 | once a waiting task's stored status is canceled, no run starts its handler, changes its stored status, or moves it back to a queue it has left |
| `Cancellation.TimedOutIsDead` | consumer.go:128-153 | a timed-out task is requeued once as canceled and from then on only dropped |
| `Cancellation.CancelStopsHandler` | queue.go:193-207 | after the save of a `Cancel` of a waiting task no later run starts its handler, if and only if the mover holds no older copy of the task |
| `Cancellation.CancelSafety` | queue.go:193-207 | what a caller can check: a `Cancel` is safe from whatever the mover reads before its save if and only if the task is not delayed, or delayed to a second that has not come |
| `Cancellation.CancelBeforeDue` | queue.go:193-207 | a `Cancel` of a task not yet due always holds, whatever the mover is doing |
| `Cancellation.CancelInWindowIsLost` | broker_redis.go:196-216 | while the mover holds an older copy, its transaction restores the old status |
| `LostCancels.CanceledTaskStarts` | broker_redis.go:196-216 | a concrete orderly run from the empty queue in which a task is stored as canceled before its handler has run, and its handler is started all the same |
| `Timeliness.NothingEarly` | broker_redis.go:477-483 | in every state an orderly run reaches, the ETA stored for a listed id is not after the clock, and neither is that of a task whose handler is about to be started, through publications, retries, cancels and the mover's write-back |
| `Countdown.WaitsForItsEta` | queue.go:386-390 | at every moment of an orderly run at which an id is listed or its handler has ever been started, the second of the ETA it was published for has come |
| `Delays.NeverEarly` | broker_redis.go:253-257 | no id enters the list a full second or more before the ETA it was published for |
| `Delays.LeavesIntoList` | broker_redis.go:206-226 | a delayed id leaves the delayed set only into the list |
| `Delays.TickListsDue` | broker_redis.go:193-226 | a tick at or after the ETA lists the id, whatever happens before its transaction |
| `Delays.ListedWithinTwoTicks` | broker_redis.go:245 | from the empty queue, with ticks at most a period apart, no id is still delayed two periods after its ETA, whether the mover has read it or not |
| `Delays.NeverLate` | broker_redis.go:191-194 | an id the mover has not read is less than one period past its ETA |
| `Movers.BetweenOneAndK` | broker_redis.go:188-226 | with k movers each ZADD of an id is listed at most k times, and at least once when it is gone, unless a later ZADD overwrote it or the task asks for a TTL and its hash had expired |
| `Movers.StaleMoverSpares` | broker_redis.go:219-220 | a stale mover's removal takes an id exactly if it read that id's latest ZADD |
| `Movers.MoveRemovesWhatItRead` | broker_redis.go:206-226 | a transaction removes no ZADD later than the one its mover read, and lists it unless its hash had expired |
| `Movers.MissingHashIsLost` | broker_redis.go:284-291 | an id whose hash is missing at the snapshot is removed without being listed, if and only if it is missing |
| `Flatten.Unpack` | utils.go:123-133 | the loop flattens a map, in whatever order it ranges over it, naming each field once |
| `Flatten.Collate` | broker_redis.go:52-61 | the script's loop pairs what HGETALL returns |
| `Flatten.RegroupFlattened` | broker_redis.go:52-61 | pairing up a flattened map gives the map back for every order |
| `Flatten.SameFields` | broker_redis.go:35-40 | HMSET and HMSETEXPIRE store the same fields in every order, and regrouping the stored hash gives it back |
| `Broker.RedisBroker.ConsumeDelayed` | broker_redis.go:184-235 | exactly one mover is running per registered queue, however often it is registered |
| `Broker.RedisBroker.Publish` | broker_redis.go:462-490 | the fields are merged into the task's hash, which keeps its other fields and its expiry, and the id goes to the right end of the list, to the left end, or into the delayed set by its ETA; nothing else changes |
| `Broker.RedisBroker.Set` | broker_redis.go:423-444 | the fields are merged and the others kept; the expiry is the whole seconds of the duration from now, or, if there are none, what a live hash had |
| `Broker.RedisBroker.Get` | broker_redis.go:333-347 | the live hash of the task, empty if there is none |
| `Broker.RedisBroker.PayloadsFromKeys` | broker_redis.go:302-315 | the hash of every key asked for |
| `Broker.RedisBroker.Payloads` | broker_redis.go:266-294 | the non-empty hashes of the ids read, each once, in any order |
| `Broker.RedisBroker.Consume` | broker_redis.go:237-294 | pops the rightmost id and returns its hash, if it is there; with a prefix also what the list's own key names as an id |
| `Broker.RedisBroker.ReadDue` | broker_redis.go:253-294 | the payloads of exactly the ids in the range |
| `Broker.RedisBroker.Requeue` | broker_redis.go:206-226 | the transaction publishes every payload that names an id, then clears the range of the unprefixed key |
| `Broker.RedisBroker.Tick` | broker_redis.go:193-227 | a whole tick; no transaction when no payload was read |
| `Broker.RedisBroker.Count` | broker_redis.go:396-420 | the sizes of the list and of the delayed set, and their sum |
| `Broker.RedisBroker.Empty` | broker_redis.go:495-502 | empties the list; delayed ids and hashes stay |
| `Broker.TaskKeysApart` | task.go:344-347 | two tasks whose ids hold no colon have the same key only if they are the same task of the same queue |
| `Broker.DelayNamesApart` | broker_redis.go:184-187 | queues of different names have different delayed sets, and none has its list's key |
| `Broker.UnnamedPassedOver` | broker_redis.go:207-211 | payloads whose id is no text are passed over, and take no other with them |
| `Refinement.FilledRefinesSaved` | queue.go:339-364 | saving a task's encoding into its hash refines the protocol's save, with or without a TTL |
| `Refinement.PublishedRefines` | broker_redis.go:462-485 | a publication refines the protocol's save and push |
| `Refinement.LoadRefines` | queue.go:263-277 | a worker can load a hash exactly when the protocol says so, and loads the same task |
| `Refinement.MoverRefines` | broker_redis.go:193-226 | what the broker's mover reads at one moment and writes back at another is the protocol's snapshot and transaction |
| `Refinement.PrefixedMoverClearsNothing` | broker_redis.go:220 | what a transaction lists leaves the delayed set if and only if the prefix is empty |
| `Conformance.PublishIsARun` | queue.go:396-419 | `Publish` is a submission, its HMSET and its push in the protocol |
| `Conformance.PublishOptionsIsARun` | queue.go:384-405 | with options it is that run of the task the options make: delayed to the second its countdown ends in, to the left for a negative countdown, to the right without one |
| `Conformance.CountdownIsWaitedFor` | queue.go:384-390 | in every orderly run a task published with a countdown is never listed, and its handler never started, before the second its countdown ends in |
| `Conformance.ConsumeIsARun` | queue.go:254-261 | `Consume` is a pop and a load; the hand gets the decoded task, unless there is none or it is canceled |
| `Conformance.TickIsARun` | broker_redis.go:193-227 | a tick that reads any payload is a range read, a snapshot and a transaction |
| `Conformance.HandleIsARun` | consumer.go:173-217 | for every handler that returns or panics, and every list of middlewares, what `Handle` leaves in the queue is what a run of the protocol leaves |
| `Conformance.CanceledIsARun` | consumer.go:186-187 | `Handle` of a task loaded as canceled leaves the task, the context and the queue as the load left them, and the id settled |
| `Conformance.CrashIsARun` | consumer.go:60-94 | an unrecovered panic that ends the process before the worker acts is a run that breaks off there |
| `Conformance.HandlingDb` | consumer.go:105-160 | that run: saved as processing, settled once, then saved or republished |
| `Queues.Queue.Save` | queue.go:339-364 | writes the encoded task under the queue it names; the hash expires the TTL's whole seconds from now if the task succeeded or failed for good, now or when loaded, and else keeps the expiry it had; nothing if it cannot be encoded |
| `Queues.Queue.PublishTask` | queue.go:408-419 | publishes the encoded task with its ETA, or changes nothing |
| `Queues.Queue.MakeTask` | queue.go:368-393 | every field: waiting, with the options' retries, TTL, timeout and intervals; the ETA is now plus the countdown, or zero without one |
| `Queues.Queue.Publish` | queue.go:396-405 | with a countdown of zero or more the id is delayed to the second the countdown ends in, with a negative one it goes to the left, without one to the right; nothing changes if the task cannot be encoded |
| `Queues.Queue.Get` | queue.go:220-243 | a fresh task that is what the hash decodes to, or the key that cannot be read |
| `Queues.Queue.Cancel` | queue.go:193-207 | the loaded task, marked and saved back; nothing changes if it cannot be loaded |
| `Queues.Queue.PayloadsToTasks` | queue.go:263-277 | the readable payloads as fresh tasks, in order |
| `Queues.ReadableJoins` | queue.go:263-277 | each payload is read by itself: an unreadable one is passed over and takes no other with it |
| `Queues.Queue.Consume` | queue.go:254-261 | the readable tasks of what the broker popped: the popped id's, or none if its hash is gone or unreadable |
| `Handlers.Chain` | handler.go:16-29 | the downward loop nests the middlewares with the first outermost |
| `Handlers.Request.WithContext` | request.go:24-33 | a new request for the same task; the old one keeps its context |
| `Handlers.Request.Assign` | consumer.go:74 | overwrites a request in place |
| `Consumers.Consumer.HandleError` | consumer.go:105-160 | nothing unless the task is processing; else the status, time, error, retries and next ETA of the settlement, field by field, and its id nowhere, or pushed where that ETA sends it if a retry was left; an unwritable task leaves the broker alone and is an error |
| `Consumers.Consumer.SpendRetry` | consumer.go:147-148 | one retry less, and the ETA that follows from the ones left |
| `Consumers.Consumer.Serve` | middleware/recoverer.go:16-45 | the calls of a chain over aliased requests have the effect the specification computes on the held and the current context, the shared task, and the queue |
| `Consumers.Consumer.HandleTask` | consumer.go:60-99 | the chain's error, or else the one left in the held request's context; nil, sent before the process goes down, for a panic nobody recovers |
| `Consumers.Consumer.Handle` | consumer.go:173-217 | a canceled task is left alone with its context and the server, and nothing runs; else a whole handling: save as processing, chain, second `handleError`, after-request functions; under an unrecovered panic as far as the worker gets; an unwritable task is marked as processing and nothing else happens |
| `Panics.PanicBecomesFailure` | middleware/recoverer.go:20-38 | with `Recoverer` outermost and any context-extending middlewares inside, a panicking handler's delivery settles as failed, is saved or republished as such, and the registered functions run |
| `Panics.PanicVisibility` | middleware/recoverer.go:35-37 | for every order of middlewares with a `Recoverer`, a panic settles as a failure if and only if the innermost one comes before any that makes a new request; otherwise it is recorded as a success |
| `Panics.PanicUnrecovered` | consumer.go:60-94 | a panic takes the process down if and only if there is no `Recoverer`; depending on how far the worker gets with the nil error it was sent, the task is left stored as processing or as succeeded, never failed and never requeued |
| `Panics.ReturnSettlesOnce` | consumer.go:162-171 | a handler that returns is settled once, by `handleRequest`, whatever the middlewares; a failed write goes unreported |
| `Panics.DirectAt` | handler.go:16-29 | what that condition says of positions in the chain |
| `Panics.EffectOfPanic` | consumer.go:73-84 | what a panic leaves on the held request: the error, and which registered functions survive |
| `Crawl.CrawlHandler.Handle` | examples/crawler/handler/crawl.go:105-157 | fails at once on a payload it cannot decode; else records the page and publishes pages one level deeper, each for a link of the page not yet crawled, up to the first publication that fails; every such link unless one fails; nothing at depth 0 or for a status other than 200 |
| `Crawl.CrawlHandler.ExtractLinks` | examples/crawler/handler/crawl.go:84-102 | a link is kept if and only if it has not been crawled; order and multiplicity are kept |
| `Crawl.UnvisitedPicks` | examples/crawler/handler/crawl.go:93-99 | what is kept are the links at increasing places, and those places are all of uncrawled links |
| `Crawl.MeantPages` | examples/crawler/handler/crawl.go:134-156 | a page is published exactly if the fetch answered 200, the depth is not 0, and it is the page of an uncrawled link |
| `Crawl.HandleSteps` | examples/crawler/handler/crawl.go:134-156 | every delivery, retried or not, replaces a crawl by finitely many that are smaller in depth and retries |
| `Crawl.CrawlingTerminates` | examples/crawler/handler/crawl.go:134-156 | every sequence of deliveries ends if and only if no crawl starts with a negative depth |
| `Crawl.EveryRunEnds` | examples/crawler/handler/crawl.go:105-157 | there is no infinite run from crawls of depth 0 or more |

## Left out

- Redis client construction, cluster and sentinel options, `Initialize`, `Ping`, script re-loading and network errors: plumbing. A Redis command is one atomic step, and so is a TxPipelined.
- `List`, `Flush` and `Delete`: easy members; `List` also reads an unprefixed key.
- Broker.Keyspace: lists, sorted sets and hashes live in separate namespaces, so queue names whose keys collide (a queue named like another's delayed set) are not modelled.
- Non-empty prefixes in the protocol: it is the queue of a broker with an empty one; the prefix appears in `Broker` and in `Refinement.PrefixedMoverClearsNothing`.
- Codec.Serialize: `ExecTime` is not written, and whole seconds are integer division toward zero, without floating point. Keys are an enumeration, not strings.
- Codec.TaskFromPayload: `exec_time`, and the error its text could give, are not read.
- Tasks.Task.MarkAsSucceeded: does not set `ExecTime`, which nothing but the codec and logs reads.
- Tasks.Task.MarkAsFailed: does not set `ExecTime`.
- The serializer is opaque, with the law that loading what was dumped gives the value back.
- ULID generation: ids are given, and a publication uses a new one.
- Consumers.Consumer.HandleTask: the handler ends before the timeout; `Deliveries` interleaves the two.
- Consumers.Consumer.Handle: likewise; handlers change nothing of the task, and the texts `errors.Wrapf` adds to an error are not modelled. The hooks of the queue are in `Hooks`, apart from it. The chain is a fresh slice; the backing array a concurrent `append` could share is not modelled.
- Deliveries.OneSettlement: checking the status and marking the task is one step, as is reading an error across the goroutines; the data race on the shared variables is not modelled.
- Conservation.EachIdInOnePlace: brokers and hooks that return errors, workers that crash (an unrecovered panic apart, which is in `Deliveries` and `Panics`), and `Empty` are outside the runs considered.
- Draining.CanSettleAll: says that the queue can always be drained; that workers and the mover keep being scheduled is not modelled.
- Movers.BetweenOneAndK: the movers are a system of their own, beside the one mover of the protocol; what else happens to a queue is its ZADDs, writes and expiries.
- Crawl.CrawlHandler.Handle: fetching and parsing pages are parameters, and publishing appends to a sequence.
- Options, engine start and stop, wait groups, logging, tracing, terminal colours, Sentry, gRPC, HTTP and HTML: easy or outside the queue.
