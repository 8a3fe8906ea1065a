/**
 The record layer: the `jobs`, `job_events` and `outbox` tables and the transactions over them.

 `Database` is the specification, with each job's log beside its row. `Repository` is the tables:
 one flat event table shared by all jobs, updated in place. A transaction that raises changes
 nothing.
 */
module Records {
  import opened Core
  import opened Domain
  import opened Keys
  import opened Leases

  datatype Payload = Payload(durationMs: nat, failureRate: real, poison: bool)

  datatype JobRow = JobRow(
    key: string, payload: Payload, state: JobState, attempts: int, fence: int, result: Option<nat>)

  datatype Job = Job(row: JobRow, log: Log)

  datatype OutboxRow = OutboxRow(job: JobId, payload: Payload, published: bool)

  /** `byKey` is the unique index on the idempotency key. */
  datatype Database = Database(jobs: map<JobId, Job>, byKey: map<string, JobId>, outbox: seq<OutboxRow>)

  /** The arguments of `record_event`. */
  datatype Write = Write(event: EventType, attempt: int, token: Option<int>, result: Option<nat>)

  datatype Verdict = Accepted | Illegal | Stale | Missing

  /** The transition is judged first, the fence second. */
  function Judge(row: JobRow, w: Write): Verdict {
    if Apply(Some(row.state), w.event).None? then Illegal
    else if w.token.Some? && w.token.value < row.fence then Stale
    else Accepted
  }

  function Updated(row: JobRow, w: Write): JobRow
    requires Judge(row, w) == Accepted
  {
    row.(state := Apply(Some(row.state), w.event).value,
         attempts := Max(row.attempts, w.attempt),
         fence := if w.token.Some? then w.token.value else row.fence,
         result := if w.result.Some? then w.result else row.result)
  }

  function EventOf(w: Write): JobEvent {
    JobEvent(w.event, w.attempt, w.token)
  }

  function Written(job: Job, w: Write): Job {
    if Judge(job.row, w) == Accepted then Job(Updated(job.row, w), job.log + [EventOf(w)]) else job
  }

  const FirstEvents: Log := [JobEvent(EventType.Submitted, 0, None), JobEvent(Enqueued, 0, None)]

  function NewRow(key: string, payload: Payload): JobRow {
    JobRow(key, payload, Queued, 0, 0, None)
  }

  datatype Submission = Created(id: JobId) | Existing(id: JobId) | IdTaken

  /** A known key wins over everything; a fresh id that is taken violates the primary key. */
  function Admit(db: Database, id: JobId, key: string): Submission {
    if key in db.byKey then Existing(db.byKey[key])
    else if id in db.jobs then IdTaken
    else Created(id)
  }

  function Inserted(db: Database, id: JobId, key: string, payload: Payload): Database {
    if Admit(db, id, key).Created? then
      Database(db.jobs[id := Job(NewRow(key, payload), FirstEvents)], db.byKey[key := id],
               db.outbox + [OutboxRow(id, payload, false)])
    else db
  }

  function JudgeIn(db: Database, id: JobId, w: Write): Verdict {
    if id in db.jobs then Judge(db.jobs[id].row, w) else Missing
  }

  function Recorded(db: Database, id: JobId, w: Write): Database {
    if id in db.jobs then db.(jobs := db.jobs[id := Written(db.jobs[id], w)]) else db
  }

  const ReplayWrite := Write(Replayed, 0, None, None)

  function Reinjected(db: Database, id: JobId): Database {
    if JudgeIn(db, id, ReplayWrite) == Accepted then
      Recorded(db, id, ReplayWrite).(outbox := db.outbox + [OutboxRow(id, db.jobs[id].row.payload, false)])
    else db
  }

  // ----- one transaction, value by value -----

  predicate OthersUntouched(before: Database, after: Database, id: JobId) {
    forall j :: j in before.jobs && j != id ==> j in after.jobs && after.jobs[j] == before.jobs[j]
  }

  /** One write on a job: everything its row and its log hold afterwards. */
  predicate WriteEnters(before: Job, after: Job, w: Write) {
    && after.log == before.log + [JobEvent(w.event, w.attempt, w.token)]
    && Apply(Some(before.row.state), w.event) == Some(after.row.state)
    && before.row.attempts <= after.row.attempts && w.attempt <= after.row.attempts
    && (after.row.attempts == before.row.attempts || after.row.attempts == w.attempt)
    && (w.token.Some? ==> after.row.fence == w.token.value)
    && (w.token.None? ==> after.row.fence == before.row.fence)
    && (w.result.Some? ==> after.row.result == w.result)
    && (w.result.None? ==> after.row.result == before.row.result)
    && after.row.key == before.row.key && after.row.payload == before.row.payload
  }

  /** `record_event`: an accepted write enters one job; any other write changes nothing. */
  predicate WriteStores(before: Database, after: Database, id: JobId, w: Write, v: Verdict) {
    && (v == Missing <==> id !in before.jobs)
    && (v != Accepted ==> after == before)
    && (v == Accepted ==>
          && id in before.jobs && id in after.jobs && WriteEnters(before.jobs[id], after.jobs[id], w)
          && after.jobs.Keys == before.jobs.Keys && OthersUntouched(before, after, id)
          && after.byKey == before.byKey && after.outbox == before.outbox)
  }

  lemma RecordedStores(db: Database, id: JobId, w: Write)
    ensures WriteStores(db, Recorded(db, id, w), id, w, JudgeIn(db, id, w))
  {
    if id in db.jobs && JudgeIn(db, id, w) != Accepted { assert db.jobs[id := db.jobs[id]] == db.jobs; }
  }

  /** `submit_job`: a new key and a new id make one job and one outbox row; anything else changes nothing. */
  predicate SubmitStores(before: Database, after: Database, id: JobId, key: string, payload: Payload, r: Submission) {
    && (r == Created(id) <==> key !in before.byKey && id !in before.jobs)
    && (key in before.byKey <==> r.Existing?) && (r.Existing? ==> r.id == before.byKey[key])
    && (r != Created(id) ==> after == before)
    && (r == Created(id) ==>
          && after.jobs.Keys == before.jobs.Keys + {id} && OthersUntouched(before, after, id)
          && after.jobs[id].row == JobRow(key, payload, Queued, 0, 0, None)
          && after.jobs[id].log == [JobEvent(EventType.Submitted, 0, None), JobEvent(Enqueued, 0, None)]
          && after.byKey == before.byKey[key := id]
          && after.outbox == before.outbox + [OutboxRow(id, payload, false)])
  }

  lemma InsertedStores(db: Database, id: JobId, key: string, payload: Payload)
    ensures SubmitStores(db, Inserted(db, id, key, payload), id, key, payload, Admit(db, id, key))
  {}

  /** `replay_job`: a job in DEAD_LETTER is queued again with one more outbox row; nothing else of it changes. */
  predicate ReplayStores(before: Database, after: Database, id: JobId, v: Verdict) {
    && (v == Accepted <==> id in before.jobs && before.jobs[id].row.state == DeadLetter)
    && (v == Missing <==> id !in before.jobs)
    && (v != Accepted ==> after == before)
    && (v == Accepted ==>
          && after.jobs.Keys == before.jobs.Keys && OthersUntouched(before, after, id)
          && after.jobs[id].row == before.jobs[id].row.(state := Queued, attempts := after.jobs[id].row.attempts)
          && (0 <= before.jobs[id].row.attempts ==> after.jobs[id].row.attempts == before.jobs[id].row.attempts)
          && after.jobs[id].log == before.jobs[id].log + [JobEvent(Replayed, 0, None)]
          && after.byKey == before.byKey
          && after.outbox == before.outbox + [OutboxRow(id, before.jobs[id].row.payload, false)])
  }

  lemma ReinjectedStores(db: Database, id: JobId)
    ensures ReplayStores(db, Reinjected(db, id), id, JudgeIn(db, id, ReplayWrite))
  {}

  // ----- the tables -----

  datatype EventRow = EventRow(job: JobId, event: JobEvent)

  function LogOf(events: seq<EventRow>, id: JobId): Log {
    if events == [] then []
    else
      var last := events[|events| - 1];
      LogOf(events[..|events| - 1], id) + (if last.job == id then [last.event] else [])
  }

  lemma LogOfAppend(events: seq<EventRow>, e: EventRow, id: JobId)
    ensures LogOf(events + [e], id) == LogOf(events, id) + (if e.job == id then [e.event] else [])
  {
    assert (events + [e])[..|events|] == events;
  }

  lemma {:induction false} NoEventsNoLog(events: seq<EventRow>, id: JobId)
    requires forall i :: 0 <= i < |events| ==> events[i].job != id
    ensures LogOf(events, id) == []
  {
    if events != [] { NoEventsNoLog(events[..|events| - 1], id); }
  }

  /** Each row with the events that reference it. */
  function Assembled(jobs: map<JobId, JobRow>, events: seq<EventRow>): map<JobId, Job> {
    map id | id in jobs :: Job(jobs[id], LogOf(events, id))
  }

  /** One event with its updated row changes one job and no other. */
  lemma AssembledAppend(jobs: map<JobId, JobRow>, events: seq<EventRow>, id: JobId, row: JobRow, e: JobEvent)
    ensures Assembled(jobs[id := row], events + [EventRow(id, e)])
         == Assembled(jobs, events)[id := Job(row, LogOf(events, id) + [e])]
  {
    var more := events + [EventRow(id, e)];
    forall j ensures LogOf(more, j) == if j == id then LogOf(events, j) + [e] else LogOf(events, j) {
      LogOfAppend(events, EventRow(id, e), j);
    }
    var a, b := Assembled(jobs[id := row], more), Assembled(jobs, events)[id := Job(row, LogOf(events, id) + [e])];
    assert a.Keys == b.Keys;
    forall j | j in a ensures a[j] == b[j] {}
  }

  /** The two first events of a new job are its log, and no other job's. */
  lemma FirstLog(events: seq<EventRow>, id: JobId, first: JobEvent, second: JobEvent, j: JobId)
    requires forall i :: 0 <= i < |events| ==> events[i].job != id
    ensures LogOf(events + [EventRow(id, first)] + [EventRow(id, second)], j)
         == if j == id then [first, second] else LogOf(events, j)
  {
    NoEventsNoLog(events, id);
    LogOfAppend(events, EventRow(id, first), j);
    LogOfAppend(events + [EventRow(id, first)], EventRow(id, second), j);
  }

  lemma AssembledFirst(
      jobs: map<JobId, JobRow>, events: seq<EventRow>, id: JobId, row: JobRow, first: JobEvent, second: JobEvent)
    requires forall i :: 0 <= i < |events| ==> events[i].job != id
    ensures Assembled(jobs[id := row], events + [EventRow(id, first)] + [EventRow(id, second)])
         == Assembled(jobs, events)[id := Job(row, [first, second])]
  {
    var all := events + [EventRow(id, first)] + [EventRow(id, second)];
    var a, b := Assembled(jobs[id := row], all), Assembled(jobs, events)[id := Job(row, [first, second])];
    assert a.Keys == b.Keys;
    forall j | j in a ensures a[j] == b[j] { FirstLog(events, id, first, second, j); }
  }

  class Repository {
    var jobs: map<JobId, JobRow>
    var keyIndex: map<string, JobId>
    var jobEvents: seq<EventRow>
    var outbox: seq<OutboxRow>

    /** Every event references an existing job. */
    ghost predicate Valid()
      reads this
    {
      forall i :: 0 <= i < |jobEvents| ==> jobEvents[i].job in jobs
    }

    ghost function Db(): Database
      reads this
    {
      Database(Assembled(jobs, jobEvents), keyIndex, outbox)
    }

    constructor ()
      ensures Valid() && Db() == Database(map[], map[], [])
    {
      jobs := map[];
      keyIndex := map[];
      jobEvents := [];
      outbox := [];
    }

    /** Job, first two events and outbox row in one transaction; a known key changes nothing. */
    method SubmitJob(id: JobId, key: string, payload: Payload) returns (r: Submission)
      requires Valid()
      modifies this
      ensures Valid()
      ensures r == Admit(old(Db()), id, key)
      ensures Db() == Inserted(old(Db()), id, key, payload)
      ensures SubmitStores(old(Db()), Db(), id, key, payload, r)
    {
      InsertedStores(Db(), id, key, payload);
      if key in keyIndex {
        return Existing(keyIndex[key]);
      }
      if id in jobs {
        return IdTaken;
      }
      AssembledFirst(jobs, jobEvents, id, NewRow(key, payload), FirstEvents[0], FirstEvents[1]);
      jobs := jobs[id := NewRow(key, payload)];
      keyIndex := keyIndex[key := id];
      jobEvents := jobEvents + [EventRow(id, FirstEvents[0])] + [EventRow(id, FirstEvents[1])];
      outbox := outbox + [OutboxRow(id, payload, false)];
      return Created(id);
    }

    /** Judge the transition, then let the guarded UPDATE decide, then append the event. */
    method ApplyEvent(id: JobId, w: Write) returns (v: Verdict)
      requires Valid()
      modifies this`jobs, this`jobEvents
      ensures Valid()
      ensures v == JudgeIn(old(Db()), id, w)
      ensures Db() == Recorded(old(Db()), id, w)
      ensures WriteStores(old(Db()), Db(), id, w, v)
    {
      RecordedStores(Db(), id, w);
      if id !in jobs {
        return Missing;
      }
      var row := jobs[id];
      var next := Apply(Some(row.state), w.event);
      if next.None? {
        return Illegal;
      }
      var token := if w.token.Some? then w.token.value else row.fence;
      if token < row.fence {
        return Stale;
      }
      var updated := row.(state := next.value, attempts := Max(row.attempts, w.attempt), fence := token,
                          result := if w.result.Some? then w.result else row.result);
      AssembledAppend(jobs, jobEvents, id, updated, EventOf(w));
      jobs := jobs[id := updated];
      jobEvents := jobEvents + [EventRow(id, EventOf(w))];
      return Accepted;
    }

    /** Operator replay: REPLAYED and a fresh outbox row, together or not at all. */
    method ReplayJob(id: JobId) returns (v: Verdict)
      requires Valid()
      modifies this
      ensures Valid()
      ensures v == JudgeIn(old(Db()), id, ReplayWrite)
      ensures Db() == Reinjected(old(Db()), id)
      ensures ReplayStores(old(Db()), Db(), id, v)
    {
      ReinjectedStores(Db(), id);
      if id !in jobs {
        return Missing;
      }
      var payload := jobs[id].payload;
      v := ApplyEvent(id, ReplayWrite);
      if v == Accepted {
        outbox := outbox + [OutboxRow(id, payload, false)];
      }
    }
  }

  // ----- the row is a fold of the log -----

  function MaxAttempt(log: Log): int {
    if log == [] then 0 else Max(MaxAttempt(log[..|log| - 1]), log[|log| - 1].attempt)
  }

  /** The largest token any accepted write carried. */
  function TopToken(log: Log): int {
    if log == [] then 0
    else
      var rest, last := TopToken(log[..|log| - 1]), log[|log| - 1];
      if last.token.Some? then Max(rest, last.token.value) else rest
  }

  lemma {:induction false} MaxAttemptBounds(log: Log, i: nat)
    requires i < |log|
    ensures log[i].attempt <= MaxAttempt(log)
  {
    if i < |log| - 1 { MaxAttemptBounds(log[..|log| - 1], i); }
  }

  lemma {:induction false} MaxAttemptAttained(log: Log)
    ensures MaxAttempt(log) == 0 || exists i :: 0 <= i < |log| && log[i].attempt == MaxAttempt(log)
    ensures 0 <= MaxAttempt(log)
  {
    if log != [] {
      var init := log[..|log| - 1];
      MaxAttemptAttained(init);
      if MaxAttempt(log) != 0 && log[|log| - 1].attempt != MaxAttempt(log) {
        var i :| 0 <= i < |init| && init[i].attempt == MaxAttempt(init);
        assert log[i].attempt == MaxAttempt(log);
      }
    }
  }

  predicate HasResult(log: Log) {
    Count(log, Completed) > 0
  }

  /** State, attempts and fence of the row, recomputed from the log. */
  predicate RecordFolds(job: Job) {
    && StandingOf(job.log) == At(job.row.state)
    && job.row.attempts == MaxAttempt(job.log)
    && job.row.fence == TopToken(job.log)
  }

  predicate ResultFolds(job: Job) {
    job.row.result.Some? <==> HasResult(job.log)
  }

  /** Everything the `jobs` row caches, recomputed from the log. */
  predicate RowFolds(job: Job) {
    RecordFolds(job) && ResultFolds(job)
  }

  /** A result accompanies COMPLETED and nothing else. */
  predicate Honest(w: Write) {
    w.result.Some? <==> w.event == Completed
  }

  lemma WrittenFolds(job: Job, w: Write)
    requires RecordFolds(job)
    ensures RecordFolds(Written(job, w))
    ensures ResultFolds(job) && Honest(w) ==> ResultFolds(Written(job, w))
    ensures job.row.fence <= Written(job, w).row.fence
    ensures w.token.None? ==> Written(job, w).row.fence == job.row.fence
  {
    if Judge(job.row, w) == Accepted {
      var e := EventOf(w);
      assert (job.log + [e])[..|job.log|] == job.log;
      CountAppend(job.log, e, Completed);
    }
  }

  lemma NewJobFolds(key: string, payload: Payload)
    ensures RowFolds(Job(NewRow(key, payload), FirstEvents))
  {
    assert FirstEvents[..1] == [FirstEvents[0]];
    assert FirstEvents[..1][..0] == [];
    assert Count(FirstEvents[..1], Completed) == 0;
  }

  /** The largest token bounds, and unless zero is among, the tokens in the log. */
  lemma {:induction false} TopTokenBounds(log: Log, i: nat)
    requires i < |log| && log[i].token.Some?
    ensures log[i].token.value <= TopToken(log)
  {
    if i < |log| - 1 { TopTokenBounds(log[..|log| - 1], i); }
  }

  lemma {:induction false} TopTokenAttained(log: Log)
    ensures TopToken(log) == 0 || exists i :: 0 <= i < |log| && log[i].token == Some(TopToken(log))
  {
    if log != [] {
      var init := log[..|log| - 1];
      TopTokenAttained(init);
      if TopToken(log) != 0 && log[|log| - 1].token != Some(TopToken(log)) {
        var i :| 0 <= i < |init| && init[i].token == Some(TopToken(init));
        assert log[i].token == Some(TopToken(log));
      }
    }
  }

  // ----- runs of transactions -----

  datatype Transaction =
    | Submit(id: JobId, key: string, payload: Payload)
    | Record(id: JobId, write: Write)
    | Replay(id: JobId)

  function Commit(db: Database, tx: Transaction): Database {
    match tx
    case Submit(id, key, payload) => Inserted(db, id, key, payload)
    case Record(id, w) => Recorded(db, id, w)
    case Replay(id) => Reinjected(db, id)
  }

  function History(txs: seq<Transaction>): Database {
    if txs == [] then Database(map[], map[], []) else Commit(History(txs[..|txs| - 1]), txs[|txs| - 1])
  }

  predicate HonestHistory(txs: seq<Transaction>) {
    forall i :: 0 <= i < |txs| && txs[i].Record? ==> Honest(txs[i].write)
  }

  /**
   Whoever writes whatever, with whatever tokens: state, attempts and fence of every row are the fold of
   its log; and so is its result, if results come with COMPLETED and nothing else.
   */
  lemma {:induction false} EveryRowFolds(txs: seq<Transaction>, id: JobId)
    requires id in History(txs).jobs
    ensures RecordFolds(History(txs).jobs[id])
    ensures HonestHistory(txs) ==> ResultFolds(History(txs).jobs[id])
  {
    var db := History(txs[..|txs| - 1]);
    if id in db.jobs {
      EveryRowFolds(txs[..|txs| - 1], id);
    }
    match txs[|txs| - 1]
    case Submit(_, key, payload) => NewJobFolds(key, payload);
    case Record(i, w) => if i == id { WrittenFolds(db.jobs[id], w); }
    case Replay(i) => if i == id { WrittenFolds(db.jobs[id], ReplayWrite); }
  }

  /** The fence of a job never goes back and its log only grows. */
  lemma {:induction false} FenceNeverDecreases(txs: seq<Transaction>, n: nat, id: JobId)
    requires n <= |txs| && id in History(txs[..n]).jobs
    ensures id in History(txs).jobs
    ensures History(txs[..n]).jobs[id].row.fence <= History(txs).jobs[id].row.fence
    ensures History(txs[..n]).jobs[id].log <= History(txs).jobs[id].log
  {
    if n == |txs| {
      assert txs[..n] == txs;
    } else {
      var init := txs[..|txs| - 1];
      assert init[..n] == txs[..n];
      FenceNeverDecreases(init, n, id);
    }
  }

  function RowsOf(outbox: seq<OutboxRow>, id: JobId): nat {
    if outbox == [] then 0
    else RowsOf(outbox[..|outbox| - 1], id) + (if outbox[|outbox| - 1].job == id then 1 else 0)
  }

  lemma RowsOfAppend(outbox: seq<OutboxRow>, row: OutboxRow, id: JobId)
    ensures RowsOf(outbox + [row], id) == RowsOf(outbox, id) + (if row.job == id then 1 else 0)
  {
    assert (outbox + [row])[..|outbox|] == outbox;
  }

  lemma {:induction false} NoRows(outbox: seq<OutboxRow>, id: JobId)
    requires forall i :: 0 <= i < |outbox| ==> outbox[i].job != id
    ensures RowsOf(outbox, id) == 0
  {
    if outbox != [] { NoRows(outbox[..|outbox| - 1], id); }
  }

  /** The unique index and the rows agree on which key belongs to which job. */
  predicate OneToOne(db: Database) {
    && (forall k :: k in db.byKey ==> db.byKey[k] in db.jobs && db.jobs[db.byKey[k]].row.key == k)
    && (forall id :: id in db.jobs ==> db.jobs[id].row.key in db.byKey && db.byKey[db.jobs[id].row.key] == id)
  }

  /** What the constraints of the schema and the two outbox inserts keep true of the tables. */
  predicate Coherent(db: Database) {
    && OneToOne(db)
    && (forall r :: 0 <= r < |db.outbox| ==>
          db.outbox[r].job in db.jobs && db.outbox[r].payload == db.jobs[db.outbox[r].job].row.payload)
    && (forall id :: id in db.jobs ==> RowsOf(db.outbox, id) == 1 + Count(db.jobs[id].log, Replayed))
  }

  lemma SubmitCoherent(db: Database, id: JobId, key: string, payload: Payload)
    requires Coherent(db)
    ensures Coherent(Inserted(db, id, key, payload))
  {
    if Admit(db, id, key).Created? {
      CommitOneToOne(db, Submit(id, key, payload));
      SubmitRows(db, id, key, payload);
    }
  }

  lemma NoReplaysYet()
    ensures Count(FirstEvents, Replayed) == 0
  {
    assert FirstEvents[..1] == [FirstEvents[0]];
  }

  lemma SubmitRows(db: Database, id: JobId, key: string, payload: Payload)
    requires Coherent(db) && Admit(db, id, key).Created?
    ensures var after := Inserted(db, id, key, payload);
            forall j :: j in after.jobs ==> RowsOf(after.outbox, j) == 1 + Count(after.jobs[j].log, Replayed)
  {
    NoRows(db.outbox, id);
    NoReplaysYet();
    var after := Inserted(db, id, key, payload);
    forall j | j in after.jobs ensures RowsOf(after.outbox, j) == 1 + Count(after.jobs[j].log, Replayed) {
      RowsOfAppend(db.outbox, OutboxRow(id, payload, false), j);
    }
  }

  lemma RecordCoherent(db: Database, id: JobId, w: Write)
    requires Coherent(db) && w.event != Replayed
    ensures Coherent(Recorded(db, id, w))
  {
    if id in db.jobs { CountAppend(db.jobs[id].log, EventOf(w), Replayed); }
  }

  lemma ReinjectCoherent(db: Database, id: JobId)
    requires Coherent(db)
    ensures Coherent(Reinjected(db, id))
  {
    if JudgeIn(db, id, ReplayWrite) == Accepted {
      CountAppend(db.jobs[id].log, EventOf(ReplayWrite), Replayed);
      forall j { RowsOfAppend(db.outbox, OutboxRow(id, db.jobs[id].row.payload, false), j); }
    }
  }

  /** A known key stays known, under the same job. */
  lemma {:induction false} KeysStay(txs: seq<Transaction>, n: nat, key: string)
    requires n <= |txs| && key in History(txs[..n]).byKey
    ensures key in History(txs).byKey && History(txs).byKey[key] == History(txs[..n]).byKey[key]
  {
    if n == |txs| {
      assert txs[..n] == txs;
    } else {
      assert txs[..|txs| - 1][..n] == txs[..n];
      KeysStay(txs[..|txs| - 1], n, key);
    }
  }

  /** What the i-th transaction, a submit, answered. */
  function SubmitAnswer(txs: seq<Transaction>, i: nat): Submission
    requires i < |txs| && txs[i].Submit?
  {
    Admit(History(txs[..i]), txs[i].id, txs[i].key)
  }

  /**
   Idempotent submission: in any history, once a key has been answered with a job, every later
   submit of that key answers the same job with created=False and changes no table.
   */
  lemma IdempotentSubmission(txs: seq<Transaction>, i: nat, k: nat)
    requires i < k < |txs| && txs[i].Submit? && txs[k].Submit? && txs[i].key == txs[k].key
    requires !SubmitAnswer(txs, i).IdTaken?
    ensures SubmitAnswer(txs, k) == Existing(SubmitAnswer(txs, i).id)
    ensures History(txs[..k + 1]) == History(txs[..k])
  {
    var key := txs[i].key;
    assert txs[..i + 1][..i] == txs[..i];
    assert key in History(txs[..i + 1]).byKey;
    assert txs[..k][..i + 1] == txs[..i + 1];
    KeysStay(txs[..k], i + 1, key);
    assert txs[..k + 1][..k] == txs[..k];
  }

  /** The i-th transaction is the submit that answered created=True for this key. */
  predicate CreatedBy(txs: seq<Transaction>, i: nat, key: string) {
    i < |txs| && txs[i].Submit? && txs[i].key == key && SubmitAnswer(txs, i).Created?
  }

  lemma CreationStands(txs: seq<Transaction>, i: nat, key: string)
    requires CreatedBy(txs, i, key)
    ensures key in History(txs).byKey && txs[i].id == History(txs).byKey[key]
  {
    assert txs[..i + 1][..i] == txs[..i];
    KeysStay(txs, i + 1, key);
  }

  /** Exactly one submit of a known key answered created=True, and its job is the key's job. */
  lemma {:induction false} CreatedExactlyOnce(txs: seq<Transaction>, key: string)
    requires key in History(txs).byKey
    ensures exists i: nat :: CreatedBy(txs, i, key) && txs[i].id == History(txs).byKey[key]
                             && forall k: nat :: CreatedBy(txs, k, key) ==> k == i
  {
    var i := Creation(txs, key);
    CreationStands(txs, i, key);
    OnlyOneCreates(txs, i, key);
  }

  lemma {:induction false} Creation(txs: seq<Transaction>, key: string) returns (i: nat)
    requires key in History(txs).byKey
    ensures CreatedBy(txs, i, key)
  {
    var n := |txs| - 1;
    var init := txs[..n];
    if key in History(init).byKey {
      i := Creation(init, key);
      assert init[..i] == txs[..i];
    } else {
      i := n;
    }
  }

  /** Every outbox row belongs to a job and carries its payload. */
  predicate RowsBelong(db: Database) {
    forall r :: 0 <= r < |db.outbox| ==>
      db.outbox[r].job in db.jobs && db.outbox[r].payload == db.jobs[db.outbox[r].job].row.payload
  }

  lemma CommitKeepsIdentity(db: Database, tx: Transaction, id: JobId)
    requires id in db.jobs
    ensures var after := Commit(db, tx);
            && id in after.jobs && after.jobs[id].row.key == db.jobs[id].row.key
            && after.jobs[id].row.payload == db.jobs[id].row.payload
  {}

  lemma CommitRowsBelong(db: Database, tx: Transaction)
    requires RowsBelong(db)
    ensures RowsBelong(Commit(db, tx))
  {
    var after := Commit(db, tx);
    forall r | 0 <= r < |after.outbox|
      ensures after.outbox[r].job in after.jobs
           && after.outbox[r].payload == after.jobs[after.outbox[r].job].row.payload
    {
      if r < |db.outbox| { CommitKeepsIdentity(db, tx, db.outbox[r].job); }
    }
  }

  lemma {:induction false} HistoryRowsBelong(txs: seq<Transaction>)
    ensures RowsBelong(History(txs))
  {
    if txs != [] {
      HistoryRowsBelong(txs[..|txs| - 1]);
      CommitRowsBelong(History(txs[..|txs| - 1]), txs[|txs| - 1]);
    }
  }

  lemma {:induction false} Origin(txs: seq<Transaction>, id: JobId) returns (i: nat)
    requires id in History(txs).jobs
    ensures i < |txs| && txs[i] == Submit(id, History(txs).jobs[id].row.key, History(txs).jobs[id].row.payload)
    ensures CreatedBy(txs, i, txs[i].key)
  {
    var n := |txs| - 1;
    var init := txs[..n];
    if id in History(init).jobs {
      i := Origin(init, id);
      assert init[..i] == txs[..i];
      CommitKeepsIdentity(History(init), txs[n], id);
    } else {
      i := n;
    }
  }

  /**
   In every history key and payload of a job, and the payloads of all its outbox rows, are those of the
   one submit that answered created=True for its key.
   */
  lemma PayloadsAreSubmitted(txs: seq<Transaction>, id: JobId)
    requires id in History(txs).jobs
    ensures var db := History(txs); var row := db.jobs[id].row;
            exists i: nat ::
              && CreatedBy(txs, i, row.key) && txs[i] == Submit(id, row.key, row.payload)
              && (forall r :: 0 <= r < |db.outbox| && db.outbox[r].job == id ==> db.outbox[r].payload == txs[i].payload)
              && (forall k: nat :: CreatedBy(txs, k, row.key) ==> k == i)
  {
    var i := Origin(txs, id);
    HistoryRowsBelong(txs);
    OnlyOneCreates(txs, i, txs[i].key);
  }

  lemma OnlyOneCreates(txs: seq<Transaction>, i: nat, key: string)
    requires CreatedBy(txs, i, key)
    ensures forall k: nat :: CreatedBy(txs, k, key) ==> k == i
  {
    forall k: nat | CreatedBy(txs, k, key) ensures k == i {
      if i < k { IdempotentSubmission(txs, i, k); }
      if k < i { IdempotentSubmission(txs, k, i); }
    }
  }

  lemma CommitOneToOne(db: Database, tx: Transaction)
    requires OneToOne(db)
    ensures OneToOne(Commit(db, tx))
  {
    match tx
    case Submit(id, key, _) =>
    case Record(id, w) => if id in db.jobs { assert Written(db.jobs[id], w).row.key == db.jobs[id].row.key; }
    case Replay(id) => if id in db.jobs { assert Written(db.jobs[id], ReplayWrite).row.key == db.jobs[id].row.key; }
  }

  /** Keys and jobs are one to one in every history. */
  lemma {:induction false} KeysAreOneToOne(txs: seq<Transaction>)
    ensures OneToOne(History(txs))
  {
    if txs != [] {
      KeysAreOneToOne(txs[..|txs| - 1]);
      CommitOneToOne(History(txs[..|txs| - 1]), txs[|txs| - 1]);
    }
  }

  // ----- the SQL guard is the fenced writer -----

  /** The row's guard, fed a sequence of writes: its verdicts and the row it leaves. */
  function GuardRun(row: JobRow, writes: seq<Write>): (seq<Verdict>, JobRow) {
    if writes == [] then ([], row)
    else
      var (vs, r) := GuardRun(row, writes[..|writes| - 1]);
      var w := writes[|writes| - 1];
      (vs + [Judge(r, w)], if Judge(r, w) == Accepted then Updated(r, w) else r)
  }

  /**
   The same writes decided by a fenced writer instead: a write whose transition is legal and that
   carries a token is put to the writer's rule, and the writer remembers what it accepted.
   */
  function WriterRun(state: JobState, newest: int, writes: seq<Write>): (seq<Verdict>, JobState, int) {
    if writes == [] then ([], state, newest)
    else
      var (vs, s, n) := WriterRun(state, newest, writes[..|writes| - 1]);
      var w := writes[|writes| - 1];
      match Apply(Some(s), w.event)
      case None => (vs + [Illegal], s, n)
      case Some(next) =>
        if w.token.None? then (vs + [Accepted], next, n)
        else if Accepts(n, w.token.value) then (vs + [Accepted], next, w.token.value)
        else (vs + [Stale], s, n)
  }

  /** The WHERE clause on `fence_token` and the fenced writer decide every sequence of writes alike. */
  lemma {:induction false} GuardIsFencedWriter(row: JobRow, writes: seq<Write>)
    ensures WriterRun(row.state, row.fence, writes)
         == (GuardRun(row, writes).0, GuardRun(row, writes).1.state, GuardRun(row, writes).1.fence)
  {
    if writes != [] {
      GuardIsFencedWriter(row, writes[..|writes| - 1]);
    }
  }

  /** The writer object itself, driven through a sequence of tokens, follows that rule. */
  method DriveWriter(writer: FencedWriter, resource: JobId, row: JobRow, writes: seq<Write>)
    returns (verdicts: seq<Verdict>)
    requires writer.NewestAccepted(resource) == row.fence
    modifies writer
    ensures verdicts == GuardRun(row, writes).0
    ensures writer.NewestAccepted(resource) == GuardRun(row, writes).1.fence
  {
    verdicts := [];
    var state := row.state;
    for i := 0 to |writes|
      invariant (verdicts, state, writer.NewestAccepted(resource)) == WriterRun(row.state, row.fence, writes[..i])
    {
      assert writes[..i + 1][..i] == writes[..i];
      var w := writes[i];
      var next := Apply(Some(state), w.event);
      if next.None? {
        verdicts := verdicts + [Illegal];
      } else if w.token.None? {
        verdicts, state := verdicts + [Accepted], next.value;
      } else {
        var error := writer.Check(resource, w.token.value);
        if error.None? {
          verdicts, state := verdicts + [Accepted], next.value;
        } else {
          verdicts := verdicts + [Stale];
        }
      }
    }
    assert writes[..|writes|] == writes;
    GuardIsFencedWriter(row, writes);
  }
}
