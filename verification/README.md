# ORBITER, verified

ORBITER runs jobs on a fleet of workers that may pause, die and be redelivered to at any moment. Its
processes share three stores: Postgres tables (`jobs`, `job_events`, `outbox`), a key-value store
with expiring entries (leases, execution claims, done markers, token counters), and a JetStream work
queue with its dead-letter stream. This project models those stores, the code that changes them and
the protocol that the processes follow, and proves what the protocol keeps over every run.

`dafny verify dfyconfig.toml` checks everything.

## How the model is built

| file | contents |
|---|---|
| `Domain.dfy` | states, events, the transition table, `replay`, the shape of legal logs |
| `TimedStore.dfy` | `InMemoryKV` and `FakeClock` as classes, and the abstract timed map they implement |
| `Keys.dfy` | key and owner texts, and that they never collide |
| `Leases.dfy` | `LeaseManager`, `FencedWriter` and `ExecutionGuard` as classes over the store |
| `Records.dfy` | the record layer: a specification per job, and the flat tables as a class |
| `Broker.dfy` | the broker calls of one process, as a class |
| `System.dfy` | the whole platform as a step system: `Next` is one awaited effect of one process |
| `Safety.dfy`, `Preservation.dfy`, `WorkerSteps.dfy`, `OtherSteps.dfy` | the invariant and its preservation by every step |
| `Guarantees.dfy`, `BoundedHistory.dfy` | what the invariant promises to clients and operators |
| `Frames.dfy` | what a step of one process leaves alone |
| `NoLoss.dfy`, `Promptness.dfy` | when a job cannot be lost |
| `Carriers.dfy` | exactly which steps take a job's carrier, and which give it one back |
| `OldLives.dfy`, `Movement.dfy`, `Loss.dfy` | exactly when a job is stuck for good, and that every other one can move |
| `Recovery.dfy`, `Margin.dfy` | the first redelivery after a worker's death, and exactly when it recovers the job |
| `Exclusion.dfy` | timed mutual exclusion in runs |
| `Relays.dfy`, `Quarantines.dfy` | `relay_once` and the quarantine: as methods, as steps, and re-run after a kill |
| `Ledger.dfy`, `Origins.dfy` | every log entry, result, key and payload traced to the step it comes from |
| `Fates.dfy`, `Markers.dfy` | every answer to the broker in seconds, and every claim, lease and done marker, traced likewise |
| `Locks.dfy` | the row locks of concurrent relays |
| `Replays.dfy` | exactly when an operator's replay can be undone |
| `Handling.dfy` | `process` and `handle` as written, over the stores as written, refining the step system |
| `Scenarios.dfy` | runs under the default settings that show where a promise fails |

Two views of the imperative code are kept and connected. The classes and methods follow the source:
`Repository`, `InMemoryKV`, `LeaseManager`, `ExecutionGuard`, `FencedWriter`, `JetStream`, `Worker`,
`RelayOnce`, `RunQuarantine`. The step system splits the same code at every await, so that other
processes may interleave there and the process may die there. `Handling.Worker.Handle`,
`Relays.RoundRefines` and `Quarantines.AttemptIs` say that an uninterrupted call does what the steps do.

In the step system a run is any sequence of steps: submissions, replays, the passing of time, the
early loss of any key-value entry, every effect of every handler, relay and listener, errors, deaths,
deliveries, advisories. `Next` is total (an impossible step changes nothing), so every sequence of
steps whatever is the sequence of some run (`System.EverySequenceRuns`), and a theorem about runs, or
about `Reachable` states, is a theorem about every interleaving. `acquire`, `try_claim` and `mark_done` are
two steps each. A database transaction is one step, since `FOR UPDATE` serialises it per job.

## Where the code and its documentation disagree

- "A quarantine can be late; it cannot be lost" (src/orbiter/dlq/listener.py:12,
  docs/adr/0006-durable-dead-letter-path.md) holds for a listener that dies, not for an error that the
  listener catches: the advisory is acked all the same (src/orbiter/dlq/listener.py:182-190).
  `Carriers.SwallowedErrorTakesCarrier` says exactly when the job is left without a carrier, and
  `Scenarios.SwallowedErrorLosesJob` is a run that ends with the job stuck (`Loss.StuckExactly`, below).
- "Crashing and re-running this block is safe at every point" (src/orbiter/dlq/listener.py:135-136)
  holds for any number of kills (`Quarantines.RerunsAreOneRun`, `Quarantines.RerunsInAnyInterleaving`),
  but not with an operator's replay in between: an old quarantine can dead-letter the job again. In any
  interleaving it can do so if and only if, at the replay, an older row of the job is still unpublished,
  an older message is stored with its advisory not settled, or a listener stands before its audit of one
  (`Replays.ReplayHoldsExactly`). With nobody else moving this is a kill between the audit write and the
  delete, and none later (`Quarantines.ReplayBetween`, `Scenarios.ReplayIsUndone`).
- The docstring of `FencedWriter` says that the Postgres repository shares its implementation. It does
  not; the WHERE clause is a second implementation, proved equivalent (`Records.GuardIsFencedWriter`).
- `handle` takes an illegal COMPLETED to mean that its delivery is obsolete. A worker that pauses
  beyond its claim and its delivery can be wrong about that and terminate the only message of a QUEUED
  job: `Scenarios.PausedWorkerLosesJob` is such a run. `Carriers.CarrierTakenExactlyBy` says which steps,
  in any reachable state, take the carrier of an active job; `Promptness.NoJobIsLost` that a worker whose
  writes come before its claim expires is never one to take it. A job without carrier is not lost yet: a
  handler in flight, a listener before its audit or an older message may still move it. It is lost when
  it is stuck, and it is stuck if and only if no steps extend its log any more, short of a publication
  outside the dedupe window (`Loss.StuckExactly`, `Loss.StuckForGood`).
- The TTL margin (src/orbiter/config.py:42-49) makes the first redelivery after a death succeed
  (`Margin.FirstRedeliveryRecovers`), with one exception: a worker that has naked the message and dies
  before it releases its lease may leave a lease that outlives the nak's delay
  (`Scenarios.DeathAfterNakTurnsAway`). Whatever the settings and the timing, every next delivery
  recovers if and only if claim and lease are gone by the time the message is due
  (`Margin.RecoversExactly`).

## Model

| member | source | states |
|---|---|---|
| `Domain.Replay` | src/orbiter/domain/state_machine.py:72-83 | the loop returns the state at which the whole log stands, or raises at the first illegal event, or on the empty log; exactly one of the three |
| `Domain.LegalShape` | src/orbiter/domain/state_machine.py:27-83 | in every legal log DEAD_LETTERED minus REPLAYED is 1 exactly in DEAD_LETTER and 0 otherwise, COMPLETED and FAILED each count 1 exactly in their state, and closings never exceed STARTED |
| `Domain.TerminalIsForever` | src/orbiter/domain/model.py:35-36 | no extension of a log that ends in a terminal state replays |
| `Domain.VerdictIsLast` | src/orbiter/domain/state_machine.py:51-52 | a COMPLETED or FAILED in a legal log is its last event and decides its state |
| `Domain.LegalEventsOf` | src/orbiter/domain/state_machine.py:86-93 | the legal events of each state, listed; none exactly when the state is terminal; before a job exists only SUBMITTED is legal |
| `Domain.LengthIsCounts` | src/orbiter/domain/model.py:24-32 | a log is as long as the counts of its event types add up to |
| `TimedStore.InMemoryKV.Live` | src/orbiter/kv/store.py:68-75 | reading a key drops it if expired, returns it otherwise, and changes nothing observable |
| `TimedStore.InMemoryKV.Get` | src/orbiter/kv/store.py:77-79 | answers as the abstract timed map does and leaves it unchanged |
| `TimedStore.InMemoryKV.SetIfAbsent` | src/orbiter/kv/store.py:81-85 | succeeds exactly when the abstract map has no live entry, which it then has until now + ttl |
| `TimedStore.InMemoryKV.Incr` | src/orbiter/kv/store.py:87-89 | counts up from the abstract counter, which never expires |
| `TimedStore.InMemoryKV.CompareAndDelete` | src/orbiter/kv/store.py:91-96 | deletes exactly a live entry that holds the expected value |
| `TimedStore.InMemoryKV.RunScript` | src/orbiter/kv/store.py:60-96 | for every script of operations and forward clock movements, lazy expiry gives the abstract map's answers one by one and ends in its state |
| `TimedStore.FakeClock.Advance` | src/orbiter/kv/store.py:34-35 | the clock moves by the given seconds |
| `TimedStore.LiveExactlyWhileGranted` | src/orbiter/kv/store.py:38-51 | a key is live exactly while some grant of it is neither expired nor released, and then has that grant's value and expiry |
| `TimedStore.MutualExclusion` | src/orbiter/leases/fencing.py:62-69 | two successful SET NX on one key, in any script, are a full TTL apart unless the first owner released in between |
| `Exclusion.RunsExclude` | src/orbiter/leases/fencing.py:62-69 | on every path, two handlers that take the claim, or the lease, of one job are a full TTL apart, unless the first gave it back or the store lost it in between |
| `TimedStore.TokensIncrease` | src/orbiter/leases/fencing.py:43-48 | of two increments of one counter in any script the later returns strictly more, so no token is issued twice |
| `Keys.KeysNeverCollide` | src/orbiter/leases/fencing.py:54-60 | for colon-free job ids, equal key texts mean the same kind of key of the same job |
| `Keys.OwnersNeverCollide` | src/orbiter/worker/main.py:133 | `name:number` determines the name and the number, whatever the name |
| `Keys.DecimalReads` | src/orbiter/worker/main.py:133 | the number written in an owner reads back as the number |
| `Leases.LeaseManager.Acquire` | src/orbiter/leases/fencing.py:62-69 | draws the next token even when it fails, and takes the lease under that token exactly when nobody holds it |
| `Leases.LeaseManager.Release` | src/orbiter/leases/fencing.py:71-76 | deletes the lease only if it is still held under this very token |
| `Leases.FencedWriter.Check` | src/orbiter/leases/fencing.py:91-95 | accepts exactly tokens at least as new as the newest accepted, which it then becomes; a rejection names it and changes nothing |
| `Leases.ExecutionGuard.TryClaim` | src/orbiter/worker/idempotency.py:42-48 | already done exactly under a live marker, claimed exactly when neither marker nor claim is live, and only then is anything stored |
| `Leases.ExecutionGuard.MarkDone` | src/orbiter/worker/idempotency.py:50-52 | stores the marker if absent and gives back only its own claim |
| `Leases.ExecutionGuard.ReleaseClaim` | src/orbiter/worker/idempotency.py:54-56 | gives back only its own claim |
| `Records.Repository.SubmitJob` | src/orbiter/db/repo.py:41-87 | a new key and a new id: row with this key and payload, the two first events and one unpublished outbox row with this payload together, every other job untouched; a known key answered with its job and nothing changed |
| `Records.InsertedStores` | src/orbiter/db/repo.py:54-86 | the same of the specification, value by value |
| `Records.Repository.ApplyEvent` | src/orbiter/db/repo.py:126-189 | the transition is judged first, the fence second; an accepted write appends event, attempt and token, raises attempts, sets fence and result where given, and leaves key, payload and every other job alone; a refused one changes nothing |
| `Records.RecordedStores` | src/orbiter/db/repo.py:140-169 | the same of the specification, value by value |
| `Records.Repository.ReplayJob` | src/orbiter/db/repo.py:192-208 | accepted exactly in DEAD_LETTER: QUEUED again, REPLAYED at attempt 0 without token, one unpublished outbox row with the job's payload; attempts (never negative), fence, result, key, payload and every other job as they were; otherwise nothing |
| `Records.ReinjectedStores` | src/orbiter/db/repo.py:196-208 | the same of the specification, value by value |
| `Records.EveryRowFolds` | src/orbiter/db/repo.py:126-169 | in every history of transactions, by whomever and with whatever tokens, state, attempts and fence of every row are the fold of its log; so is the presence of a result, if results accompany COMPLETED and nothing else |
| `Records.WrittenFolds` | src/orbiter/db/repo.py:142-161 | one write keeps state, attempts and fence the fold of the log, never lowers the fence and leaves it unchanged when unfenced; a write with a result exactly on COMPLETED keeps the result column a fold too |
| `Records.FenceNeverDecreases` | src/orbiter/db/schema.sql:10-12 | between any two moments of a history a job's fence does not go back and its log only grows |
| `Records.TopTokenBounds` | src/orbiter/db/schema.sql:10-12 | the fold's token is at least every token in the log |
| `Records.TopTokenAttained` | src/orbiter/db/schema.sql:10-12 | the fold's token is one of the log's, or zero |
| `Records.MaxAttemptBounds` | src/orbiter/db/repo.py:147 | the fold's attempts are at least every attempt in the log |
| `Records.MaxAttemptAttained` | src/orbiter/db/repo.py:147 | the fold's attempts are one of the log's, or zero |
| `Records.IdempotentSubmission` | src/orbiter/db/repo.py:54-71 | once a key has been answered, every later submit of it answers the same job with created=False and changes no table |
| `Records.CreatedExactlyOnce` | src/orbiter/db/repo.py:46-51 | exactly one submit of a known key answered created=True, and its job is the key's job |
| `Records.PayloadsAreSubmitted` | src/orbiter/db/repo.py:54-86 | in every history key and payload of a job, and the payload of each of its outbox rows, are those of the one submit that answered created=True for its key |
| `Records.KeysAreOneToOne` | src/orbiter/db/schema.sql:5-6 | in every history keys and jobs are one to one |
| `Records.GuardIsFencedWriter` | src/orbiter/db/repo.py:142-161 | for every sequence of writes, fenced or not, the WHERE clause and the fenced writer accept and reject the same ones, and newest accepted equals the row's fence |
| `Records.DriveWriter` | src/orbiter/leases/fencing.py:79-98 | the `FencedWriter` object, driven through a sequence of writes, gives the SQL guard's verdicts and ends at the row's fence |
| `Broker.JetStream.Publish` | src/orbiter/relay/outbox_relay.py:62-68 | the message is stored unless its id is a duplicate inside the window |
| `Broker.JetStream.PublishCopy` | src/orbiter/dlq/listener.py:137-141 | the DLQ copy is stored unless its id is a duplicate inside the window |
| `Broker.JetStream.Delete` | src/orbiter/dlq/listener.py:154 | a stored message is deleted, any other is left alone |
| `Broker.JetStream.Deliver` | src/orbiter/worker/main.py:48-62 | a delivery counts one up and hides the message until the deadline |
| `Safety.NextGrows` | src/orbiter/db/schema.sql:18 | no step of any process shortens a log, a stream, the outbox or a counter, revives a removed message or unmarks a row |
| `WorkerSteps.WorkerKeeps` | src/orbiter/worker/main.py:148-262 | one effect of one handler keeps the safety invariant, whatever everybody else is doing |
| `OtherSteps.NextKeeps` | src/orbiter/worker/main.py:148-262 | every step of every process keeps the safety invariant |
| `OtherSteps.PathKeeps` | src/orbiter/worker/main.py:148-262 | once true, the safety invariant is true along every path of steps |
| `OtherSteps.ReachableIsSafe` | src/orbiter/worker/main.py:148-262 | the safety invariant holds in every reachable state |
| `Preservation.ClosesItsOwn` | src/orbiter/db/repo.py:140-161 | an accepted COMPLETED, FAILED or REQUEUED finds as last event the STARTED of its own lease |
| `Guarantees.PathGrows` | src/orbiter/db/schema.sql:18 | between any two moments of a path history only grows |
| `Guarantees.FencingPayoff` | src/orbiter/worker/main.py:199-247 | in every run each COMPLETED, FAILED or REQUEUED is immediately preceded by the STARTED of the same lease and attempt, and that lease has no other STARTED |
| `Guarantees.DeliveriesDrawOnce` | src/orbiter/leases/fencing.py:62-69 | in every run a delivery draws at most one token: the deliveries behind a job's tokens are pairwise distinct |
| `Guarantees.OneVerdict` | src/orbiter/worker/main.py:206-247 | in every run a log has at most one COMPLETED or FAILED and nothing after it |
| `Guarantees.EveryCallHasItsStart` | src/orbiter/worker/main.py:199-205 | every call of `execute` has an accepted STARTED of its own lease, written while the job was QUEUED or RUNNING, and no other call shares it |
| `Guarantees.StartPrecedesCall` | src/orbiter/worker/main.py:199-205 | a handler about to call `execute` has its STARTED in the log already and has not called yet |
| `Guarantees.RowIsFold` | src/orbiter/db/repo.py:126-169 | in every run the whole row is the fold of its log, and the fence never goes back |
| `Ledger.JobMove` | src/orbiter/db/repo.py:126-169 | a step of any process leaves a job's record as it is or enters one accepted write of a handler, an audit or a replay of that job |
| `Ledger.EveryEntryIs` | src/orbiter/dlq/listener.py:143-149 | in every run a log opens with SUBMITTED and ENQUEUED, each DEAD_LETTERED carries max_deliver and no token, each REPLAYED attempt 0 and no token, each STARTED, COMPLETED and REQUEUED an attempt in range and a token, each FAILED the last attempt; the row's attempts are the largest logged and at most max_deliver |
| `Ledger.ResultIsReturned` | src/orbiter/worker/main.py:203-213 | in every run the row of a SUCCEEDED job holds the value returned by the one call of `execute` made under the lease of the COMPLETED that ends its log |
| `Origins.PayloadIsSubmitted` | src/orbiter/db/repo.py:54-86 | in every run exactly one step submitted a job, under the key that its row has, and its row, its outbox rows and its messages carry the payload submitted then |
| `Origins.PoisonIsNeverHandled` | src/orbiter/worker/main.py:160-176 | in every run a handler turns its message back at once exactly when its job was submitted with the poison flag; such a job has no STARTED, no closing event and no call, and is QUEUED or DEAD_LETTER |
| `Fates.FateMoves` | src/orbiter/worker/main.py:175-262 | in any state, what a step makes of a stored message: acked, terminated, deleted; due 0.5 s after a poison nak, 4 to 9 s (as drawn) after a busy one, 2, 4, 8, 16 and then 30 s after a failed attempt; hidden for ack_wait after a delivery; untouched by any other step |
| `Fates.PublicationIs` | src/orbiter/relay/outbox_relay.py:62-68 | only a relay adds a message: that of its outbox row, due at once, with no delivery and no advisory |
| `Fates.EveryFateHasItsCause` | src/orbiter/worker/main.py:175-262 | in every run the fate of each message is that of its publication or the one that the last step to address it gave it, and has been ever since |
| `Fates.DeliveriesAreCounted` | src/orbiter/worker/main.py:48-62 | in every run a message's delivery count is the number of its deliveries |
| `Fates.EveryHandlerHasItsDelivery` | src/orbiter/worker/main.py:123-146 | in every run a handler is that of one delivery to its worker, of that message's job, and its attempt is the delivery's number |
| `Fates.DeliveriesAreApart` | src/orbiter/worker/main.py:48-62 | on every path two deliveries of one message are ack_wait apart, or a handler of it naked it in between and that nak's delay has passed |
| `Fates.AdvisoryComesAfter` | src/orbiter/dlq/listener.py:8-12 | an advisory is raised for an exhausted message, and no sooner after a delivery than a redelivery could have come |
| `Markers.EveryEntryHasItsCause` | src/orbiter/worker/idempotency.py:42-52 | in every run a live claim, lease or done marker was stored by a handler of its job at the point for it, under that handler's delivery or token, and expires lease_ttl, or exec_guard_ttl for the marker, after that moment |
| `Markers.ClaimIsBackBeforeAnswer` | src/orbiter/worker/main.py:195-260 | in every run a handler about to ack its completed job, to nak for a retry or a held lease, or to terminate its message has given its claim back |
| `Markers.LeaseIsBackAtExit` | src/orbiter/worker/main.py:261-262 | a handler inside the `try` block leaves by giving its lease back, or dies |
| `Markers.CompletedIsRemembered` | src/orbiter/worker/idempotency.py:42-52 | in every run a handler about to ack its completed job has stored the done marker, and until exec_guard_ttl after that, unless the store loses it, every delivery of the job that looks for it goes on to ack its message as a duplicate |
| `Guarantees.AcksAreSound` | src/orbiter/worker/main.py:178-215 | in every run a live done marker, a handler about to ack and an acked message all belong to a SUCCEEDED job |
| `Guarantees.CopyBeforeDelete` | src/orbiter/dlq/listener.py:135-154 | whichever step deletes a message, its DLQ copy exists already and its job has been DEAD_LETTER, SUCCEEDED or FAILED |
| `Guarantees.OutboxConservation` | src/orbiter/db/repo.py:81-86 | in every run a job has exactly 1 + REPLAYED outbox rows, and every message comes from a row of an existing job and carries its payload |
| `Guarantees.NoJobIsMissing` | src/orbiter/db/repo.py:138-139 | in every run no handler and no quarantine is about a job that does not exist |
| `Guarantees.PublishedWasAccepted` | src/orbiter/relay/outbox_relay.py:51-74 | whichever relays died where, a row marked published was accepted by the broker |
| `Guarantees.NoDuplicatePublication` | src/orbiter/relay/outbox_relay.py:62-68 | inside the dedupe window the stream never receives two messages for one row, in any run |
| `Guarantees.NobodyTouchesMine` | src/orbiter/leases/fencing.py:71-76 | no effect of one worker deletes or replaces a lease, claim or marker that another stored |
| `BoundedHistory.HistoryIsBounded` | src/orbiter/worker/main.py:219-247 | with m messages and r replays a log has at most m·max_deliver STARTED, m·(max_deliver-1) REQUEUED, a FAILED only at attempt max_deliver or later, and length at most 3 + 2·m·max_deliver + 2·r |
| `NoLoss.SparedKeeps` | src/orbiter/worker/main.py:248-260 | for each job: a step that swallows no error about it and misjudges none of its COMPLETED removes only messages on which it no longer depends |
| `NoLoss.SoberRunLosesNoJob` | src/orbiter/worker/main.py:148-262 | with no assumption on time or on other jobs: if no error about the job is swallowed and none of its COMPLETED misjudged, then while QUEUED or RUNNING it has the carrier born of its latest submission or replay: a row the broker has not seen, or an alive message |
| `NoLoss.AliveCanMove` | src/orbiter/worker/main.py:39-62 | an alive message needs nothing but time and an idle process to be delivered, to raise its advisory, or to have it taken up |
| `Relays.WaitingRowIsReached` | src/orbiter/relay/outbox_relay.py:40-74 | whatever other relays hold, some steps lead from a row that the broker has not seen to an alive message of it, with the jobs as they were |
| `Movement.CarrierCanFinish` | src/orbiter/worker/main.py:39-62 | from every reachable state in which a QUEUED or RUNNING job has a carrier, some steps bring it to its end: its carrier alone, however often it was delivered, can take it to DEAD_LETTER |
| `Movement.HandlerWrites` | src/orbiter/worker/main.py:178-247 | a handler that has its start or its closing write ahead of it and no newer token against it can, whatever claims and leases stand in its way now, be brought to an accepted write |
| `Movement.UnquietMarks` | src/orbiter/dlq/listener.py:112-154 | from an unpublished row, a stored message with an unsettled advisory, or a listener before its audit, some steps lead to the audit write of that job |
| `Promptness.ClaimsExclude` | src/orbiter/worker/idempotency.py:42-48 | two handlers of one job never both hold an unexpired claim |
| `Promptness.PromptIsSober` | src/orbiter/worker/main.py:248-260 | a handler whose writes come before its claim expires never misjudges a COMPLETED |
| `Promptness.PromptRunIsTimely` | src/orbiter/config.py:42-49 | in every state of a run that is prompt about a job, its claims are held by their owners and no execution under a live claim has the job back in QUEUED |
| `Promptness.PromptRunIsSober` | src/orbiter/worker/main.py:248-260 | so a run that is prompt about a job misjudges none of its COMPLETED |
| `Promptness.NoJobIsLost` | src/orbiter/worker/main.py:148-262 | if the listener fails on a job's messages only by dying, its claims live for their TTL and its handlers write before their claims expire, then whatever happens to other jobs it has its carrier in every state in which it is QUEUED or RUNNING |
| `Carriers.MisjudgementTakesCarrier` | src/orbiter/worker/main.py:252-260 | after a misjudged COMPLETED and the two effects behind it the job is QUEUED, and has a carrier if and only if another message of the same outbox row is alive |
| `Carriers.SwallowedErrorTakesCarrier` | src/orbiter/dlq/listener.py:179-190 | after a swallowed quarantine error the job keeps its state; if the message was of its latest row it has a carrier if and only if another message of that row is alive, otherwise nothing changes for it |
| `Carriers.ReachableRemovesObsolete` | src/orbiter/dlq/listener.py:142-154 | in every reachable state a listener about to delete a message has before it one on which its job no longer depends |
| `Carriers.CarrierTakenExactlyBy` | src/orbiter/worker/main.py:252-260 | in every reachable state, a step takes the carrier of a QUEUED or RUNNING job if and only if it terminates as obsolete, or settles the advisory of, the last alive message of the job's latest row |
| `Carriers.UncarriedExactly` | src/orbiter/relay/outbox_relay.py:10-11 | in a reachable state a job has no carrier if and only if the broker has seen its latest row and none of the row's messages is alive |
| `Carriers.CarriedAgainExactlyBy` | src/orbiter/relay/outbox_relay.py:8-12 | a QUEUED or RUNNING job without carrier gets a carrier back by one kind of step and no other: the publication of its unmarked row after the dedupe window |
| `Carriers.UncarriedForGood` | src/orbiter/relay/outbox_relay.py:8-12 | along every path without such a publication no carrier comes back while it is QUEUED or RUNNING |
| `OldLives.StaysQuiet` | src/orbiter/dlq/listener.py:112-154 | once the rows of a job below a bound are all seen, their messages dead and their quarantines past the audit, this stays so along every path without a publication of such a row after the dedupe window |
| `Loss.ReachableAdvised` | src/orbiter/dlq/listener.py:8-12 | in every reachable state an advisory, pending or settled, is that of an exhausted message |
| `Loss.StuckForGood` | src/orbiter/worker/main.py:148-262 | along every path without such a publication a stuck job stays stuck and its whole record as it is |
| `Loss.StuckExactly` | src/orbiter/worker/main.py:148-262 | a QUEUED or RUNNING job of a reachable state is stuck (no unseen row, no alive message, no listener before its audit, no handler that may still write) if and only if no steps extend its log, publications being inside the dedupe window |
| `Loss.StuckIsUncarried` | src/orbiter/relay/outbox_relay.py:8-12 | a stuck job has no carrier |
| `Scenarios.PausedWorkerLosesJob` | src/orbiter/worker/main.py:252-260 | a run under the default settings that ends with a QUEUED job without carrier and stuck, whether or not the relay got to mark its row |
| `Scenarios.SwallowedErrorLosesJob` | src/orbiter/dlq/listener.py:182-190 | a run of a poisoned job under the default settings that ends with the job QUEUED, without carrier and stuck |
| `Scenarios.ReplayIsUndone` | src/orbiter/dlq/listener.py:135-154 | a run under the default settings whose log ends dead-lettered, replayed, dead-lettered |
| `Scenarios.DeathAfterNakTurnsAway` | src/orbiter/worker/main.py:221-262 | a run under the default settings in which the only handler of a QUEUED job is turned away by the lease of a worker that died after its nak |
| `Recovery.StaysAbandoned` | src/orbiter/config.py:42-49 | after a death, whatever happens short of a delivery of the job, what the dead handler left expires by its delivery's deadline |
| `Recovery.RedeliveryIsOnCourse` | src/orbiter/kv/store.py:68-85 | when the broker redelivers, nothing stands in the new handler's way |
| `Recovery.CourseEnds` | src/orbiter/worker/main.py:178-202 | a start that finds nothing in its way and is not killed has ended well with its fifth effect, through any interleaving |
| `Recovery.CourseIsHeld` | src/orbiter/worker/main.py:178-202 | a handler on course stays on it through any interleaving until its start ends well |
| `Recovery.AbandonedRecovers` | src/orbiter/worker/main.py:178-202 | a job whose leftovers expire by its message's deadline recovers with the first redelivery, through any interleaving |
| `Margin.ReachableWithinTtl` | src/orbiter/kv/store.py:81-85 | in every reachable state every claim and lease is gone within one TTL |
| `Margin.StaysAttended` | src/orbiter/config.py:42-49 | while a worker is alone on its job and takes claim and lease within ack_wait - lease_ttl of its delivery, they expire by the delivery's deadline |
| `Margin.MarginCovers` | src/orbiter/config.py:42-49 | at any later moment such a worker is still alone on its job, and claim and lease are gone by the time the message is due, unless the message has been naked |
| `Margin.CoveredDeathRecovers` | src/orbiter/worker/main.py:178-202 | a worker alone on its job dies when claim and lease are gone by the time the message is due, whether it had naked the message or not: on every path the next delivery is never turned away |
| `Margin.FirstRedeliveryRecovers` | src/orbiter/worker/main.py:178-202 | from its delivery on: a worker alone on its job takes claim and lease within ack_wait - lease_ttl and dies, after a nak only if its leftovers are gone when the message is due again; the next delivery is never turned away and, with its fifth effect at the latest, has its STARTED accepted if the job is still QUEUED or RUNNING |
| `Margin.UncoveredIsTurnedAway` | src/orbiter/worker/main.py:183-197 | if claim or lease outlives the time at which the message is due, there is a path on which the next delivery is turned away by it |
| `Margin.RecoversExactly` | src/orbiter/config.py:42-49 | a worker alone on a QUEUED or RUNNING job dies, its message stored and deliverable: every next delivery on every path recovers if and only if claim and lease are gone by the time the message is due |
| `Relays.BatchIsOldest` | src/orbiter/relay/outbox_relay.py:41-50 | the batch is the oldest free rows, in order and without repetition, as many as the limit and the supply allow |
| `Relays.SentReaches` | src/orbiter/relay/outbox_relay.py:51-68 | publishing n rows leaves the broker knowing exactly those rows more, the old messages in place, and inside the window no row twice |
| `Relays.SentInOrder` | src/orbiter/relay/outbox_relay.py:52-68 | what a round adds to the stream is rows of its batch in id order, each with its job and payload, due at once, undelivered |
| `Relays.RelayOnce` | src/orbiter/relay/outbox_relay.py:35-75 | selects the batch, publishes it in order, then marks exactly it, and returns its size |
| `Locks.BatchesAreDisjoint` | src/orbiter/relay/outbox_relay.py:41-50 | in every run no row is in the batches of two relays, and no row of a batch is marked published while its relay holds it |
| `Relays.RoundLowers` | src/orbiter/relay/outbox_relay.py:69-75 | a round lowers the unpublished count by min(batch, remaining) and marks exactly its batch |
| `Relays.Drain` | src/orbiter/relay/outbox_relay.py:86-92 | without inserts the loop reaches its first idle round with every row published, after exactly the rounds that the batch size needs, having sent what was unpublished and nothing else |
| `Relays.LoneRound` | src/orbiter/relay/outbox_relay.py:40-74 | interleaved with all other processes, a lone relay's round leaves the outbox untouched until its last turn and then marks its batch |
| `Relays.CompletedRoundLowers` | src/orbiter/relay/outbox_relay.py:40-74 | in the step system each completed round by a lone relay lowers the unpublished count by min(batch, remaining) |
| `Relays.RoundRefines` | src/orbiter/relay/outbox_relay.py:35-75 | what `RelayOnce` computes is what the step system reaches when nobody interrupts the relay |
| `Quarantines.RunQuarantine` | src/orbiter/dlq/listener.py:112-155 | copy, audit, delete in this order; it raises exactly on a message that is gone or a job that is missing; otherwise the message is deleted and copied, and the job, if it was QUEUED or RUNNING, dead-lettered with the message's delivery count, attempts raised to at least that |
| `Quarantines.QuarantinedClears` | src/orbiter/dlq/listener.py:135-154 | the same of the specification, value by value |
| `Quarantines.PartialIsHarmless` | src/orbiter/dlq/listener.py:135-154 | whatever part of a quarantine was done, a complete one after it ends where a complete one alone would |
| `Quarantines.AttemptIs` | src/orbiter/dlq/listener.py:112-155 | a listener of the step system killed after k effects leaves exactly the first k effects of the quarantine |
| `Quarantines.RerunsAreOneRun` | src/orbiter/dlq/listener.py:127-190 | with nobody else moving: after any number of attempts killed anywhere, a complete run leaves the same world as one complete run: log, DLQ, stream |
| `Quarantines.ReplayBetween` | src/orbiter/dlq/listener.py:135-154 | with nobody else moving: after any killed attempts, a replay, any killed attempts and a complete run, the job is dead-lettered twice if and only if before the replay some kill fell between audit and delete and none later; the log in both other cases |
| `Replays.UndoingDeadLetters` | src/orbiter/dlq/listener.py:142-149 | the audit write of an older message, in any state in which its job is QUEUED or RUNNING again, puts the job back into DEAD_LETTER |
| `Replays.QuietReplayHolds` | src/orbiter/db/repo.py:192-208 | after a replay that finds the job's older life quiet, no step of any path undoes it, short of a publication of an old row after the dedupe window |
| `Replays.ReplayHoldsExactly` | src/orbiter/db/repo.py:192-208 | a replay accepted in any reachable state can be undone, by some steps with publications inside the window, if and only if at the replay an older row is unpublished, an older message is stored with its advisory not settled, or a listener stands before its audit of one |
| `Quarantines.RerunsInAnyInterleaving` | src/orbiter/dlq/listener.py:127-190 | between two moments of a run without a replay of the job, however listeners and everybody else interleave, its log gains a DEAD_LETTERED exactly when it enters DEAD_LETTER, at most once, and inside the window a message gains at most one copy, and none if it had one |
| `Quarantines.OneDeadLetterPerLife` | src/orbiter/dlq/listener.py:142-153 | in every run DEAD_LETTERED events number REPLAYED or one more |
| `Quarantines.NoDuplicateCopies` | src/orbiter/dlq/listener.py:135-141 | inside the dedupe window no run puts two copies of a message into the DLQ |
| `Handling.Worker.Process` | src/orbiter/worker/main.py:123-146 | from a due message in stores that mirror the step system: the delivery and the handler's own moves, to mirroring stores and a worker ready for the next message |
| `Handling.Boot` | src/orbiter/worker/main.py:90-104 | fresh stores and a worker on them mirror the empty world |
| `Handling.Worker.Handle` | src/orbiter/worker/main.py:148-262 | uninterrupted, it makes exactly the moves of the handler's program counter, whose answers to the broker are those of `Fates.FateMoves`, and leaves the stores as the step system has them, whatever they held |
| `Handling.Worker.HandleClaimed` | src/orbiter/worker/main.py:188-262 | from the taken claim on, the handler's moves up to its departure |
| `Handling.Worker.Run` | src/orbiter/worker/main.py:198-260 | the `try` block and its `except` clauses end at the release of the lease, by the handler's moves |
| `Handling.Worker.Complete` | src/orbiter/worker/main.py:206-215 | COMPLETED, done marker and ack, or the refusal, by the handler's moves |
| `Handling.Worker.Requeue` | src/orbiter/worker/main.py:221-233 | REQUEUED, claim and nak, or the error that leaves for `finally`, by the handler's moves |
| `Handling.Worker.GiveUp` | src/orbiter/worker/main.py:234-247 | FAILED, claim and term, or the error that leaves for `finally`, by the handler's moves |
| `Handling.Worker.Drop` | src/orbiter/worker/main.py:252-260 | claim given back and message terminated, by the handler's moves |
| `Handling.Worker.TryClaim` | src/orbiter/worker/main.py:178-187 | the two effects of the claim lead where its result says |
| `Handling.Worker.Acquire` | src/orbiter/worker/main.py:189-196 | the two effects of the lease lead where its result says, under the token drawn |
| `Handling.Worker.Write` | src/orbiter/worker/main.py:199-213 | one database write leads where its verdict says |

## Left out

- HTTP routing, validation, HTML and status codes (`src/orbiter/api/`), the admission counter, the Valkey client, telemetry, logging, metrics, signals, connection setup: they add no protocol step.
- The body of `execute`: a call that succeeds or fails, and takes whatever time passes around it.
- JSON encoding and `parse_advisory`: advisories are well formed and payloads opaque apart from the poison flag.
- Read-only queries and DDL.
- Entries without expiry: no operation of `InMemoryKV` stores one.
- Floating-point time: the clock is a real number that never runs backwards in a run.
- The broker is abstract: an ack, nak, term or delete acts on a message that is still stored, also when it comes from an old delivery; a message raises one advisory when exhausted; the dedupe window is a choice made at each publication.
- The token in a log entry is a history variable: `job_events` does not store it and no step reads it.
- The `detail` column of `job_events`: nothing reads it.
- The `traceparent` that a submitted message carries and a replayed one does not.
- BoundedHistory.HistoryIsBounded: max_deliver is at least 1, because a consumer with no deliveries runs nothing.
- Relays.Drain: the batch size is at least 1, because a relay with batch size 0 publishes nothing; polling goes on after the first idle round, which the method does not follow.
- Handling.Worker.Handle: an unexpected error in the middle of `handle` is a step of the step system (`Raise`, `Die`), not a path of the method.
- Quarantines.RunQuarantine: the ack of the advisory, which follows whatever happened, is a step of the step system (`Settle`), not part of the method.
- Relays.WaitingRowIsReached, and with it what depends on the relay publishing a row: the batch size is at least 1, because a relay with batch size 0 publishes nothing.
- Movement.CarrierCanFinish: the batch size is at least 1, for the same reason.
- Movement.UnquietMarks: the batch size is at least 1, for the same reason.
- Loss.StuckExactly: the batch size is at least 1, for the same reason; a publication outside the dedupe window, which can move any job whose row was never marked, is left to `Loss.StuckForGood`.
- Replays.ReplayHoldsExactly: the batch size is at least 1, for the same reason.
- Margin.MarginCovers: lease_ttl is at most ack_wait, as the configuration demands.
- Margin.FirstRedeliveryRecovers: lease_ttl is at most ack_wait, as the configuration demands; otherwise there is no margin to take anything in, and what an earlier handler left may outlive the deadline.
- Liveness of jobs that take longer than `ack_wait_s`: the worker sends no heartbeats, and no such promise is made.
- Order of tokens of overlapping acquires: `incr` and SET NX are separate, so only uniqueness, and the order of acquires that do not overlap, is claimed.
