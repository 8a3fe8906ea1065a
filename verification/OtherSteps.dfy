/** Every other step keeps the safety invariant, and so does every run. */
module OtherSteps {
  import opened Domain
  import opened Keys
  import opened Records
  import opened System
  import opened Safety
  import opened Preservation
  import opened WorkerSteps

  // ----- steps that leave the handlers alone -----

  ghost predicate SameTokens(a: Log, b: Log) {
    a == b || forall token: int :: Carries(b, token) ==> Carries(a, token)
  }

  ghost predicate NoTokenWritten(a: map<JobId, Job>, b: map<JobId, Job>) {
    a == b || forall j :: j in a ==> j in b && SameTokens(a[j].log, b[j].log)
  }

  ghost predicate WorkersLeft(s: World, t: World) {
    s.workers == t.workers || forall v :: v in t.workers ==> v in s.workers && t.workers[v] == s.workers[v]
  }

  /** A step that draws no token, calls no job and writes no fenced event hurts no handler. */
  lemma NobodyHurt(cfg: Settings, s: World, t: World)
    requires HandlersOk(cfg, s) && Apart(s) && t.issued == s.issued && t.executed == s.executed
    requires WorkersLeft(s, t) && NoTokenWritten(s.db.jobs, t.db.jobs)
    ensures HandlersSettled(cfg, s, t) && Apart(t)
  {
    forall v | v in t.workers ensures Unhurt(s, t, v) {
      assert HandlerOk(cfg, s, v);
      assert SameTokens(s.db.jobs[s.workers[v].job].log, t.db.jobs[s.workers[v].job].log);
    }
  }

  /** A step that grows the world, keeps the records good and hurts no handler. */
  ghost predicate Calm(cfg: Settings, s: World, t: World) {
    && Grows(s, t) && Coherent(t.db) && JobsOk(cfg, t)
    && t.issued == s.issued && t.executed == s.executed
    && WorkersLeft(s, t) && NoTokenWritten(s.db.jobs, t.db.jobs)
    && MessagesSettled(cfg, s, t) && EntriesSettled(s, t)
    && ListenersSettled(s, t) && RelaysSettled(s, t) && OutboxSettled(s, t)
  }

  lemma CalmSettles(cfg: Settings, s: World, t: World)
    requires HandlersOk(cfg, s) && Apart(s) && Calm(cfg, s, t)
    ensures StepSettled(cfg, s, t)
  {
    NobodyHurt(cfg, s, t);
  }

  lemma CalmKeeps(cfg: Settings, s: World, t: World)
    requires Inv(cfg, s) && Calm(cfg, s, t)
    ensures Inv(cfg, t)
  {
    CalmSettles(cfg, s, t);
    Assemble(cfg, s, t);
  }

  // ----- client and operator -----

  /** Before a job exists, no token of it has been drawn. */
  lemma NothingIssuedYet(cfg: Settings, s: World, id: JobId)
    requires MessagesOk(cfg, s) && IssuedOk(s, id) && id !in s.db.jobs
    ensures DrawnFrom(s.issued, id) == []
  {
    if Issued(s, id) != [] { DrawnForSomeJob(cfg, s, id); }
  }

  lemma DrawnForSomeJob(cfg: Settings, s: World, id: JobId)
    requires MessagesOk(cfg, s) && IssuedOk(s, id) && Issued(s, id) != []
    ensures id in s.db.jobs
  {
    assert DeliveryOk(s, id, Issued(s, id)[0]);
    assert MessageOk(cfg, s, Issued(s, id)[0].msg);
  }

  lemma InsertKeepsTables(cfg: Settings, s: World, id: JobId, key: string, payload: Payload)
    requires Coherent(s.db) && JobsOk(cfg, s) && MessagesOk(cfg, s) && IssuedOk(s, id)
    ensures var db := Inserted(s.db, id, key, payload);
            Coherent(db) && RecordsOk(cfg, db.jobs, s.issued) && NoTokenWritten(s.db.jobs, db.jobs)
  {
    SubmitCoherent(s.db, id, key, payload);
    if Admit(s.db, id, key).Created? {
      NothingIssuedYet(cfg, s, id);
      NewJobOk(cfg, key, payload);
    }
  }

  /** A new outbox row starts unpublished. */
  lemma NewRowSettles(s: World, t: World)
    requires t.db.outbox == s.db.outbox
             || (|t.db.outbox| == |s.db.outbox| + 1 && t.db.outbox[..|s.db.outbox|] == s.db.outbox
                 && !t.db.outbox[|s.db.outbox|].published)
    ensures OutboxSettled(s, t)
  {
    if t.db.outbox != s.db.outbox {
      assert forall r :: 0 <= r < |s.db.outbox| ==> t.db.outbox[r] == t.db.outbox[..|s.db.outbox|][r];
    }
  }

  lemma SubmitCalm(cfg: Settings, s: World, id: JobId, key: string, payload: Payload)
    requires Coherent(s.db) && JobsOk(cfg, s) && MessagesOk(cfg, s) && IssuedOk(s, id)
    ensures Calm(cfg, s, Next(cfg, s, SubmitJob(id, key, payload)))
  {
    AmbientGrows(cfg, s, SubmitJob(id, key, payload));
    InsertKeepsTables(cfg, s, id, key, payload);
    NewRowSettles(s, s.(db := Inserted(s.db, id, key, payload)));
  }

  lemma SubmitKeeps(cfg: Settings, s: World, id: JobId, key: string, payload: Payload)
    requires Inv(cfg, s)
    ensures Inv(cfg, Next(cfg, s, SubmitJob(id, key, payload)))
  {
    SubmitCalm(cfg, s, id, key, payload);
    CalmKeeps(cfg, s, Next(cfg, s, SubmitJob(id, key, payload)));
  }

  /** DEAD_LETTERED and REPLAYED carry no token and are no part of an execution. */
  lemma UnfencedKeeps(cfg: Settings, s: World, id: JobId, w: Write)
    requires JobsOk(cfg, s) && w.token.None? && w.result.None? && (w.event == DeadLettered || w.event == Replayed)
    ensures RecordsOk(cfg, Recorded(s.db, id, w).jobs, s.issued)
    ensures NoTokenWritten(s.db.jobs, Recorded(s.db, id, w).jobs)
  {
    if id in s.db.jobs {
      var job := s.db.jobs[id];
      assert JobOk(cfg, job, DrawnFrom(s.issued, id));
      WriteKeepsJob(cfg, job, DrawnFrom(s.issued, id), w);
      UnfencedTokens(job, w);
    }
  }

  lemma UnfencedTokens(job: Job, w: Write)
    requires w.token.None?
    ensures SameTokens(job.log, Written(job, w).log)
  {
    forall token: int ensures Carries(job.log + [EventOf(w)], token) ==> Carries(job.log, token) {
      CarriesAppend(job.log, EventOf(w), token);
    }
  }

  lemma ReinjectKeepsTables(cfg: Settings, s: World, id: JobId)
    requires Coherent(s.db) && JobsOk(cfg, s)
    ensures var db := Reinjected(s.db, id);
            Coherent(db) && RecordsOk(cfg, db.jobs, s.issued) && NoTokenWritten(s.db.jobs, db.jobs)
  {
    ReinjectCoherent(s.db, id);
    UnfencedKeeps(cfg, s, id, ReplayWrite);
  }

  lemma ReplayCalm(cfg: Settings, s: World, id: JobId)
    requires Coherent(s.db) && JobsOk(cfg, s)
    ensures Calm(cfg, s, Next(cfg, s, ReplayJob(id)))
  {
    AmbientGrows(cfg, s, ReplayJob(id));
    ReinjectKeepsTables(cfg, s, id);
    NewRowSettles(s, s.(db := Reinjected(s.db, id)));
  }

  // ----- time, loss and death -----

  lemma SweepSettles(s: World, t: World)
    requires t.kv == KV.Sweep(s.kv, t.now)
    ensures EntriesSettled(s, t)
  {}

  lemma TickCalm(cfg: Settings, s: World, dt: real)
    requires Coherent(s.db) && JobsOk(cfg, s)
    ensures Calm(cfg, s, Next(cfg, s, Tick(dt)))
  {
    AmbientGrows(cfg, s, Tick(dt));
    if 0.0 <= dt { SweepSettles(s, Next(cfg, s, Tick(dt))); }
  }

  lemma LossSettles(s: World, t: World, key: Key)
    requires t.kv == s.kv - {key} && t.now == s.now && forall k :: k in s.kv ==> EntryAlive(s, k)
    ensures EntriesSettled(s, t)
  {
    forall k | k in s.kv ensures s.now < s.kv[k].expiresAt { assert EntryAlive(s, k); }
  }

  lemma LoseCalm(cfg: Settings, s: World, key: Key)
    requires Coherent(s.db) && JobsOk(cfg, s) && forall k :: k in s.kv ==> EntryAlive(s, k)
    ensures Calm(cfg, s, Next(cfg, s, Lose(key)))
  {
    AmbientGrows(cfg, s, Lose(key));
    LossSettles(s, s.(kv := s.kv - {key}), key);
  }

  ghost predicate Interrupted(s: World, t: World, w: WorkerId) {
    && w in s.workers && InsideTry(s.workers[w].pc)
    && t == s.(workers := s.workers[w := s.workers[w].(pc := ReleaseLease)])
  }

  lemma RaisedIsOk(cfg: Settings, s: World, t: World, w: WorkerId)
    requires Interrupted(s, t, w) && HandlerOk(cfg, s, w)
    ensures HandlerOk(cfg, t, w)
  {}

  lemma RaiseHandlers(cfg: Settings, s: World, t: World, w: WorkerId)
    requires HandlersOk(cfg, s) && Apart(s) && Interrupted(s, t, w)
    ensures HandlersSettled(cfg, s, t) && Apart(t)
  {
    assert HandlerOk(cfg, s, w);
    RaisedIsOk(cfg, s, t, w);
    forall v | v in t.workers && v != w ensures Unhurt(s, t, v) { assert HandlerOk(cfg, s, v); }
    StillApart(s, w, t);
  }

  /** A step that moves a handler and nothing else. */
  lemma WorkersOnly(cfg: Settings, s: World, workers: map<WorkerId, Handler>)
    requires Coherent(s.db) && JobsOk(cfg, s)
    requires HandlersSettled(cfg, s, s.(workers := workers)) && Apart(s.(workers := workers))
    ensures StepSettled(cfg, s, s.(workers := workers))
  {}

  lemma RaiseSettles(cfg: Settings, s: World, t: World, w: WorkerId)
    requires Coherent(s.db) && JobsOk(cfg, s) && HandlersOk(cfg, s) && Apart(s) && Interrupted(s, t, w)
    ensures StepSettled(cfg, s, t)
  {
    RaiseHandlers(cfg, s, t, w);
    WorkersOnly(cfg, s, t.workers);
  }

  lemma RaiseKeeps(cfg: Settings, s: World, w: WorkerId)
    requires Inv(cfg, s)
    ensures Inv(cfg, Next(cfg, s, Raise(w)))
  {
    RaiseUnfolds(cfg, s, w);
    if Interrupted(s, Next(cfg, s, Raise(w)), w) {
      RaiseSettles(cfg, s, Next(cfg, s, Raise(w)), w);
      Assemble(cfg, s, Next(cfg, s, Raise(w)));
    }
  }

  lemma RaiseUnfolds(cfg: Settings, s: World, w: WorkerId)
    ensures Next(cfg, s, Raise(w)) == s || Interrupted(s, Next(cfg, s, Raise(w)), w)
  {}

  lemma DeathCalm(cfg: Settings, s: World, step: Step)
    requires Coherent(s.db) && JobsOk(cfg, s) && (step.Die? || step.RelayDie? || step.ListenerDie?)
    ensures Calm(cfg, s, Next(cfg, s, step))
  {
    AmbientGrows(cfg, s, step);
    match step
    case Die(_) =>
    case RelayDie(_) =>
    case ListenerDie(_) =>
  }

  // ----- relay -----

  lemma {:induction false} SelectInRange(outbox: seq<OutboxRow>, locked: set<nat>, limit: nat, i: nat)
    ensures forall k :: 0 <= k < |SelectFrom(outbox, locked, limit, i)| ==>
              SelectFrom(outbox, locked, limit, i)[k] < |outbox|
    decreases |outbox| - i
  {
    if i < |outbox| && limit > 0 {
      if outbox[i].published || i in locked { SelectInRange(outbox, locked, limit, i + 1); }
      else { SelectInRange(outbox, locked, limit - 1, i + 1); }
    }
  }

  lemma SelectCalm(cfg: Settings, s: World, id: string)
    requires Coherent(s.db) && JobsOk(cfg, s)
    ensures Calm(cfg, s, Next(cfg, s, RelaySelect(id)))
  {
    SelectInRange(s.db.outbox, Locked(s.relays), cfg.batchSize, 0);
    var batch := SelectFrom(s.db.outbox, Locked(s.relays), cfg.batchSize, 0);
    SelectUnfolds(cfg, s, id);
    if id !in s.relays {
      NewRelaySettles(s, id, batch);
      RelaysOnly(cfg, s, s.relays[id := Relay(batch, 0)]);
    } else {
      StillCalm(cfg, s);
    }
  }

  lemma SelectUnfolds(cfg: Settings, s: World, id: string)
    ensures var batch := SelectFrom(s.db.outbox, Locked(s.relays), cfg.batchSize, 0);
            Next(cfg, s, RelaySelect(id)) == if id in s.relays then s else s.(relays := s.relays[id := Relay(batch, 0)])
  {}

  /** A step that moves a relay and nothing else. */
  lemma RelaysOnly(cfg: Settings, s: World, relays: map<string, Relay>)
    requires Coherent(s.db) && JobsOk(cfg, s) && RelaysSettled(s, s.(relays := relays))
    ensures Calm(cfg, s, s.(relays := relays))
  {}

  lemma NewRelaySettles(s: World, id: string, batch: seq<nat>)
    requires forall k :: 0 <= k < |batch| ==> batch[k] < |s.db.outbox|
    ensures RelaysSettled(s, s.(relays := s.relays[id := Relay(batch, 0)]))
  {
    assert RelayOk(s.(relays := s.relays[id := Relay(batch, 0)]), id);
  }

  lemma PublishedIsKnown(s: World, row: nat, inWindow: bool)
    requires row < |s.db.outbox|
    ensures Known(Published(s, row, inWindow), row)
  {
    var stream := Published(s, row, inWindow);
    if !(inWindow && Known(s.stream, row)) { assert stream[|s.stream|].row == row; }
  }

  lemma PublishMessages(cfg: Settings, s: World, row: nat, inWindow: bool, t: World)
    requires Coherent(s.db) && row < |s.db.outbox|
    requires t.stream == Published(s, row, inWindow) && t.db == s.db
    ensures MessagesSettled(cfg, s, t)
  {}

  lemma PublishRelays(s: World, id: string, inWindow: bool, t: World)
    requires id in s.relays && RelayOk(s, id) && s.relays[id].sent < |s.relays[id].batch|
    requires t == RelayStep(s, id, inWindow) && StreamGrows(s.stream, t.stream)
    ensures RelaysSettled(s, t)
  {
    var r := s.relays[id];
    PublishedIsKnown(s, r.batch[r.sent], inWindow);
    forall i | 0 <= i < r.sent ensures Known(t.stream, r.batch[i]) { KnownStays(s.stream, t.stream, r.batch[i]); }
    assert RelayOk(t, id);
  }

  lemma PublishCalm(cfg: Settings, s: World, id: string, inWindow: bool)
    requires Coherent(s.db) && JobsOk(cfg, s)
    requires id in s.relays && RelayOk(s, id) && s.relays[id].sent < |s.relays[id].batch|
    ensures Calm(cfg, s, RelayStep(s, id, inWindow))
  {
    var t := RelayStep(s, id, inWindow);
    RelayGrows(s, id, inWindow);
    PublishRelays(s, id, inWindow, t);
    PublishMessages(cfg, s, s.relays[id].batch[s.relays[id].sent], inWindow, t);
  }

  lemma {:induction false} MarkKeepsRows(outbox: seq<OutboxRow>, rows: seq<nat>, id: JobId)
    ensures RowsOf(MarkPublished(outbox, rows), id) == RowsOf(outbox, id)
  {
    if outbox != [] {
      var n := |outbox| - 1;
      MarkKeepsRows(outbox[..n], rows, id);
      assert MarkPublished(outbox, rows)[..n] == MarkPublished(outbox[..n], rows);
    }
  }

  lemma MarkCoherent(db: Database, rows: seq<nat>)
    requires Coherent(db)
    ensures Coherent(db.(outbox := MarkPublished(db.outbox, rows)))
  {
    forall j { MarkKeepsRows(db.outbox, rows, j); }
  }

  /** Marking comes after publishing: every row it marks is known to the broker. */
  lemma MarkOutbox(s: World, id: string, t: World)
    requires id in s.relays && RelayOk(s, id) && s.relays[id].sent == |s.relays[id].batch|
    requires t.db.outbox == MarkPublished(s.db.outbox, s.relays[id].batch) && t.stream == s.stream
    ensures OutboxSettled(s, t)
  {
    var batch := s.relays[id].batch;
    forall r | 0 <= r < |t.db.outbox| && t.db.outbox[r].published && !s.db.outbox[r].published
      ensures Known(t.stream, r)
    {
      var i :| 0 <= i < |batch| && batch[i] == r;
    }
  }

  lemma MarkCalm(cfg: Settings, s: World, id: string, inWindow: bool)
    requires Coherent(s.db) && JobsOk(cfg, s)
    requires id in s.relays && RelayOk(s, id) && s.relays[id].sent == |s.relays[id].batch|
    ensures Calm(cfg, s, RelayStep(s, id, inWindow))
  {
    var t := RelayStep(s, id, inWindow);
    RelayGrows(s, id, inWindow);
    MarkCoherent(s.db, s.relays[id].batch);
    MarkOutbox(s, id, t);
  }

  lemma RelayKeeps(cfg: Settings, s: World, id: string, inWindow: bool)
    requires Inv(cfg, s)
    ensures Inv(cfg, Next(cfg, s, RelayWork(id, inWindow)))
  {
    RelayUnfolds(cfg, s, id, inWindow);
    if id in s.relays {
      assert RelayOk(s, id);
      RelayCalm(cfg, s, id, inWindow);
      CalmKeeps(cfg, s, RelayStep(s, id, inWindow));
    }
  }

  lemma RelayCalm(cfg: Settings, s: World, id: string, inWindow: bool)
    requires Coherent(s.db) && JobsOk(cfg, s) && id in s.relays && RelayOk(s, id)
    ensures Calm(cfg, s, RelayStep(s, id, inWindow))
  {
    if s.relays[id].sent < |s.relays[id].batch| {
      PublishCalm(cfg, s, id, inWindow);
    } else {
      MarkCalm(cfg, s, id, inWindow);
    }
  }

  // ----- broker -----

  lemma AdviceSettles(cfg: Settings, s: World, msg: nat, t: World)
    requires msg < |s.stream| && t.stream == s.stream[msg := s.stream[msg].(advisory := Raised)]
    ensures MessagesSettled(cfg, s, t) && StreamGrows(s.stream, t.stream)
  {}

  lemma AdviseCalm(cfg: Settings, s: World, msg: nat)
    requires Coherent(s.db) && JobsOk(cfg, s) && CanAdvise(cfg, s, msg)
    ensures Calm(cfg, s, s.(stream := s.stream[msg := s.stream[msg].(advisory := Raised)]))
  {
    AdviceSettles(cfg, s, msg, s.(stream := s.stream[msg := s.stream[msg].(advisory := Raised)]));
  }

  lemma StillCalm(cfg: Settings, s: World)
    requires Coherent(s.db) && JobsOk(cfg, s)
    ensures Calm(cfg, s, s)
  {}

  /** The delivery number is new, so nobody handles or has handled this delivery. */
  lemma FreshDelivery(cfg: Settings, s: World, w: WorkerId, msg: nat)
    requires HandlersOk(cfg, s) && CanDeliver(cfg, s, w, msg) && IssuedOk(s, s.stream[msg].job)
    ensures Delivery(msg, s.stream[msg].deliveries + 1) !in Issued(s, s.stream[msg].job)
    ensures forall v :: v in s.workers ==> s.workers[v].delivery != Delivery(msg, s.stream[msg].deliveries + 1)
  {
    var job := s.stream[msg].job;
    forall i | 0 <= i < |Issued(s, job)| ensures Issued(s, job)[i] != Delivery(msg, s.stream[msg].deliveries + 1) {
      assert DeliveryOk(s, job, Issued(s, job)[i]);
    }
    forall v | v in s.workers ensures s.workers[v].delivery != Delivery(msg, s.stream[msg].deliveries + 1) {
      assert HandlerOk(cfg, s, v);
    }
  }

  lemma DeliverHandlers(cfg: Settings, s: World, w: WorkerId, msg: nat, t: World)
    requires HandlersOk(cfg, s) && Apart(s) && CanDeliver(cfg, s, w, msg) && IssuedOk(s, s.stream[msg].job)
    requires s.stream[msg].job in s.db.jobs && t == Delivered(cfg, s, w, msg)
    ensures HandlersSettled(cfg, s, t) && Apart(t)
  {
    FreshDelivery(cfg, s, w, msg);
    assert HandlerOk(cfg, t, w);
    forall v | v in s.workers ensures Unhurt(s, t, v) { assert HandlerOk(cfg, s, v); }
  }

  lemma DeliverSettles(cfg: Settings, s: World, w: WorkerId, msg: nat)
    requires Coherent(s.db) && JobsOk(cfg, s) && HandlersOk(cfg, s) && Apart(s)
    requires CanDeliver(cfg, s, w, msg) && MessageOk(cfg, s, msg) && IssuedOk(s, s.stream[msg].job)
    ensures StepSettled(cfg, s, Delivered(cfg, s, w, msg))
  {
    DeliverGrows(cfg, s, w, msg);
    DeliverHandlers(cfg, s, w, msg, Delivered(cfg, s, w, msg));
  }

  lemma DeliverKeeps(cfg: Settings, s: World, w: WorkerId, msg: nat)
    requires Inv(cfg, s)
    ensures Inv(cfg, Next(cfg, s, Deliver(w, msg)))
  {
    DeliverUnfolds(cfg, s, w, msg);
    if CanDeliver(cfg, s, w, msg) {
      assert MessageOk(cfg, s, msg);
      DeliverSettles(cfg, s, w, msg);
      Assemble(cfg, s, Delivered(cfg, s, w, msg));
    }
  }

  // ----- listener -----

  lemma AuditRests(row: JobRow, m: Message)
    requires row.state != JobState.Submitted
    ensures if Judge(row, DeadLetterWrite(m)) == Accepted then Updated(row, DeadLetterWrite(m)).state == DeadLetter
            else row.state == DeadLetter || IsTerminal(row.state)
  {
    match row.state
    case Queued =>
    case Running =>
    case Succeeded =>
    case Failed =>
    case DeadLetter =>
  }

  /** After the audit write, accepted or refused, the job has been at rest at least once. */
  lemma MarkedIsOver(job: Job, m: Message)
    requires RowFolds(job) && RowFolds(Written(job, DeadLetterWrite(m))) && job.row.state != JobState.Submitted
    ensures WasOver(Written(job, DeadLetterWrite(m)).log)
  {
    var after := Written(job, DeadLetterWrite(m));
    AuditRests(job.row, m);
    assert after.log[..|after.log|] == after.log;
    assert Over(StandingOf(after.log[..|after.log|]));
  }

  lemma LoadCalm(cfg: Settings, s: World, l: string, msg: nat, pc: QuarantinePc)
    requires Coherent(s.db) && JobsOk(cfg, s) && msg < |s.stream| && (pc == Load || pc == Copy || pc == Settle)
    ensures Calm(cfg, s, Listen(s, l, msg, pc))
  {
    assert ListenerOk(Listen(s, l, msg, pc), l);
  }

  lemma FetchCalm(cfg: Settings, s: World, l: string, msg: nat)
    requires Coherent(s.db) && JobsOk(cfg, s)
    ensures Calm(cfg, s, Next(cfg, s, Fetch(l, msg)))
  {
    AmbientGrows(cfg, s, Fetch(l, msg));
    if l !in s.listeners && msg < |s.stream| && s.stream[msg].advisory == Raised { LoadCalm(cfg, s, l, msg, Load); }
  }

  lemma SwallowCalm(cfg: Settings, s: World, l: string)
    requires Coherent(s.db) && JobsOk(cfg, s) && (l in s.listeners ==> ListenerOk(s, l))
    ensures Calm(cfg, s, Next(cfg, s, Swallow(l)))
  {
    AmbientGrows(cfg, s, Swallow(l));
    if l in s.listeners { LoadCalm(cfg, s, l, s.listeners[l].msg, Settle); }
  }

  lemma CopyCalm(cfg: Settings, s: World, l: string, msg: nat, dlq: seq<nat>)
    requires Coherent(s.db) && JobsOk(cfg, s) && msg < |s.stream| && s.dlq <= dlq && msg in dlq
    ensures Calm(cfg, s, Listen(s.(dlq := dlq), l, msg, Mark))
  {
    assert ListenerOk(Listen(s.(dlq := dlq), l, msg, Mark), l);
  }

  /** The audit write of a quarantine, and the listener that now knows the job has been at rest. */
  lemma RecordStepSettles(cfg: Settings, s: World, l: string, q: Quarantine, m: Message, t: World)
    requires Coherent(s.db) && JobsOk(cfg, s) && m.job in s.db.jobs
    requires t.db == Recorded(s.db, m.job, DeadLetterWrite(m)) && t.listeners == s.listeners[l := q]
    requires q.msg < |t.stream| && t.stream[q.msg].job == m.job && q.msg in t.dlq
    ensures Coherent(t.db) && RecordsOk(cfg, t.db.jobs, s.issued) && NoTokenWritten(s.db.jobs, t.db.jobs)
    ensures ListenersSettled(s, t) && t.db.outbox == s.db.outbox
  {
    RecordCoherent(s.db, m.job, DeadLetterWrite(m));
    UnfencedKeeps(cfg, s, m.job, DeadLetterWrite(m));
    assert JobOk(cfg, s.db.jobs[m.job], DrawnFrom(s.issued, m.job));
    assert JobOk(cfg, t.db.jobs[m.job], DrawnFrom(s.issued, m.job));
    MarkedIsOver(s.db.jobs[m.job], m);
    assert ListenerOk(t, l);
  }

  lemma RecordStepCalm(cfg: Settings, s: World, l: string)
    requires Coherent(s.db) && JobsOk(cfg, s) && l in s.listeners && ListenerOk(s, l) && s.listeners[l].pc == Mark
    requires MessageOk(cfg, s, s.listeners[l].msg)
    ensures Calm(cfg, s, ListenerStep(s, l, true))
  {
    var t := ListenerStep(s, l, true);
    ListenerGrows(s, l, true);
    RecordStepSettles(cfg, s, l, t.listeners[l], s.stream[s.listeners[l].msg], t);
  }

  lemma RemoveMessages(cfg: Settings, s: World, msg: nat, t: World)
    requires MessagesOk(cfg, s) && msg in s.dlq && msg < |s.stream|
    requires s.stream[msg].job in s.db.jobs && WasOver(s.db.jobs[s.stream[msg].job].log)
    requires t.stream == Resolve(s.stream, msg, Deleted) && t.db == s.db && t.dlq == s.dlq
    ensures MessagesSettled(cfg, s, t)
  {
    assert MessageOk(cfg, s, msg);
    if Stored(s.stream[msg].fate) { assert MessageOk(cfg, t, msg); }
  }

  lemma RemoveCalm(cfg: Settings, s: World, l: string)
    requires Coherent(s.db) && JobsOk(cfg, s) && MessagesOk(cfg, s)
    requires l in s.listeners && ListenerOk(s, l) && s.listeners[l].pc == Remove
    ensures var msg := s.listeners[l].msg;
            Calm(cfg, s, Listen(s.(stream := Resolve(s.stream, msg, Deleted)), l, msg, Settle))
  {
    var msg := s.listeners[l].msg;
    var t := Listen(s.(stream := Resolve(s.stream, msg, Deleted)), l, msg, Settle);
    ResolveGrows(s.stream, msg, Deleted);
    RemoveMessages(cfg, s, msg, t);
    SettlingSettles(s, l, msg, t);
    StreamOnly(cfg, s, t);
  }

  lemma SettlingSettles(s: World, l: string, msg: nat, t: World)
    requires t.listeners == s.listeners[l := Quarantine(msg, Settle)] && msg < |t.stream|
    ensures ListenersSettled(s, t)
  {
    assert ListenerOk(t, l);
  }

  /** A step of a listener that moves the stream and nothing else. */
  lemma StreamOnly(cfg: Settings, s: World, t: World)
    requires Coherent(s.db) && JobsOk(cfg, s) && t == s.(stream := t.stream, listeners := t.listeners)
    requires StreamGrows(s.stream, t.stream) && MessagesSettled(cfg, s, t) && ListenersSettled(s, t)
    ensures Calm(cfg, s, t)
  {}

  lemma SettleCalm(cfg: Settings, s: World, l: string)
    requires Coherent(s.db) && JobsOk(cfg, s)
    requires l in s.listeners && s.listeners[l].pc == Settle && s.listeners[l].msg < |s.stream|
    ensures Calm(cfg, s, ListenerStep(s, l, true))
  {
    ListenerGrows(s, l, true);
  }

  lemma ListenerCalm(cfg: Settings, s: World, l: string, inWindow: bool)
    requires Coherent(s.db) && JobsOk(cfg, s) && MessagesOk(cfg, s) && l in s.listeners && ListenerOk(s, l)
    ensures Calm(cfg, s, ListenerStep(s, l, inWindow))
  {
    var q := s.listeners[l];
    match q.pc
    case Load => LoadCalm(cfg, s, l, q.msg, if Stored(s.stream[q.msg].fate) then Copy else Settle);
    case Copy => CopyCalm(cfg, s, l, q.msg, Copied(s.dlq, q.msg, inWindow));
    case Mark =>
      assert MessageOk(cfg, s, q.msg);
      RecordStepCalm(cfg, s, l);
    case Remove => RemoveCalm(cfg, s, l);
    case Settle => SettleCalm(cfg, s, l);
  }

  lemma ListenerKeeps(cfg: Settings, s: World, l: string, inWindow: bool)
    requires Inv(cfg, s)
    ensures Inv(cfg, Next(cfg, s, Listening(l, inWindow)))
  {
    ListenUnfolds(cfg, s, l, inWindow);
    if l in s.listeners {
      assert ListenerOk(s, l);
      ListenerCalm(cfg, s, l, inWindow);
      CalmKeeps(cfg, s, ListenerStep(s, l, inWindow));
    }
  }

  // ----- every step, every run -----

  lemma WorkKeeps(cfg: Settings, s: World, w: WorkerId, env: Env)
    requires Inv(cfg, s)
    ensures Inv(cfg, Next(cfg, s, Work(w, env)))
  {
    WorkUnfolds(cfg, s, w, env);
    if w in s.workers { WorkerKeeps(cfg, s, w, env); }
  }

  lemma AmbientCalm(cfg: Settings, s: World, step: Step)
    requires Ambient(step) && !step.SubmitJob? && !step.Raise?
    requires Coherent(s.db) && JobsOk(cfg, s) && (forall k :: k in s.kv ==> EntryAlive(s, k))
    requires step.Swallow? && step.listener in s.listeners ==> ListenerOk(s, step.listener)
    ensures Calm(cfg, s, Next(cfg, s, step))
  {
    match step
    case ReplayJob(id) => ReplayCalm(cfg, s, id);
    case Tick(dt) => TickCalm(cfg, s, dt);
    case Lose(key) => LoseCalm(cfg, s, key);
    case RelaySelect(id) => SelectCalm(cfg, s, id);
    case RelayDie(id) => DeathCalm(cfg, s, step);
    case Advise(msg) => if CanAdvise(cfg, s, msg) { AdviseCalm(cfg, s, msg); } else { StillCalm(cfg, s); }
    case Die(w) => DeathCalm(cfg, s, step);
    case Fetch(l, msg) => FetchCalm(cfg, s, l, msg);
    case Swallow(l) => SwallowCalm(cfg, s, l);
    case ListenerDie(l) => DeathCalm(cfg, s, step);
  }

  lemma AmbientKeeps(cfg: Settings, s: World, step: Step)
    requires Inv(cfg, s) && Ambient(step) && !step.SubmitJob? && !step.Raise?
    ensures Inv(cfg, Next(cfg, s, step))
  {
    if step.Swallow? && step.listener in s.listeners { assert ListenerOk(s, step.listener); }
    AmbientCalm(cfg, s, step);
    CalmKeeps(cfg, s, Next(cfg, s, step));
  }

  /** Every step keeps the invariant. */
  lemma NextKeeps(cfg: Settings, s: World, step: Step)
    requires Inv(cfg, s)
    ensures Inv(cfg, Next(cfg, s, step))
  {
    match step
    case SubmitJob(id, key, payload) => SubmitKeeps(cfg, s, id, key, payload);
    case Raise(w) => RaiseKeeps(cfg, s, w);
    case Work(w, env) => WorkKeeps(cfg, s, w, env);
    case Deliver(w, msg) => DeliverKeeps(cfg, s, w, msg);
    case RelayWork(id, inWindow) => RelayKeeps(cfg, s, id, inWindow);
    case Listening(l, inWindow) => ListenerKeeps(cfg, s, l, inWindow);
    case _ => AmbientKeeps(cfg, s, step);
  }

  /** The safety invariant, once true, stays true along every path. */
  lemma {:induction false} PathKeeps(cfg: Settings, ws: seq<World>, steps: seq<Step>, n: nat)
    requires Path(cfg, ws, steps) && n < |ws| && Inv(cfg, ws[0])
    ensures Inv(cfg, ws[n])
  {
    if n > 0 {
      PathKeeps(cfg, ws, steps, n - 1);
      assert Linked(cfg, ws, steps, n - 1);
      NextKeeps(cfg, ws[n - 1], steps[n - 1]);
    }
  }

  lemma GenesisIsSafe(cfg: Settings)
    ensures Inv(cfg, Genesis)
  {}

  /** The safety invariant holds in every reachable state. */
  lemma ReachableIsSafe(cfg: Settings, s: World)
    requires Reachable(cfg, s)
    ensures Inv(cfg, s)
  {
    var ws, steps :| IsRun(cfg, ws, steps) && Last(ws) == s;
    GenesisIsSafe(cfg);
    PathKeeps(cfg, ws, steps, |ws| - 1);
  }
}
