/**
 The safety invariant of the platform. It holds in every run: processes interleave and die as they
 please, the key-value store may lose any entry at any moment, time may pass anywhere.
 */
module Safety {
  import opened Core
  import opened Domain
  import opened Keys
  import opened Records
  import opened System

  // ----- what is true of one job's record -----

  /** Each COMPLETED, FAILED or REQUEUED sits right behind the STARTED of the same lease. */
  ghost predicate Paired(log: Log) {
    forall i :: 0 <= i < |log| && Ends(log[i].event) ==>
      && 0 < i && log[i - 1].event == Started && log[i].token.Some?
      && log[i - 1].token == log[i].token && log[i - 1].attempt == log[i].attempt
  }

  /** No two STARTED share a lease: their tokens strictly increase. */
  ghost predicate StartsOrdered(log: Log) {
    forall i, k :: 0 <= i < k < |log| && log[i].event == Started && log[k].event == Started ==>
      log[i].token.Some? && log[k].token.Some? && log[i].token.value < log[k].token.value
  }

  /** A fenced event was written under a token that some delivery drew, at that delivery's attempt. */
  ghost predicate EntryOk(cfg: Settings, e: JobEvent, issued: seq<Delivery>) {
    && (e.event == Started || Ends(e.event) ==> e.token.Some?)
    && (e.token.Some? ==> 1 <= e.token.value <= |issued| && issued[e.token.value - 1].attempt == e.attempt)
    && (e.event == Requeued ==> e.attempt < cfg.maxDeliver)
    && (e.event == EventType.Failed ==> cfg.maxDeliver <= e.attempt)
  }

  /** A RUNNING job's last event is the STARTED of the newest lease the row has seen. */
  ghost predicate RunningIsLast(job: Job) {
    job.row.state == Running ==>
      job.log != [] && job.log[|job.log| - 1].event == Started
      && job.log[|job.log| - 1].token == Some(job.row.fence)
  }

  ghost predicate JobOk(cfg: Settings, job: Job, issued: seq<Delivery>) {
    && RowFolds(job)
    && job.row.state != JobState.Submitted
    && Paired(job.log)
    && StartsOrdered(job.log)
    && RunningIsLast(job)
    && (forall i :: 0 <= i < |job.log| ==> EntryOk(cfg, job.log[i], issued))
  }

  ghost predicate Carries(log: Log, token: int) {
    exists i :: 0 <= i < |log| && log[i].token == Some(token)
  }

  ghost predicate StartedBy(log: Log, token: int) {
    exists i :: 0 <= i < |log| && log[i].event == Started && log[i].token == Some(token)
  }

  ghost predicate Over(standing: Standing) {
    standing.At? && (standing.state == DeadLetter || IsTerminal(standing.state))
  }

  /** There was a moment when the job was DEAD_LETTER, SUCCEEDED or FAILED. */
  ghost predicate WasOver(log: Log) {
    exists n :: 0 <= n <= |log| && Over(StandingOf(log[..n]))
  }

  // ----- what is true of each inhabitant of the world -----

  ghost predicate InState(s: World, job: JobId, state: JobState) {
    job in s.db.jobs && s.db.jobs[job].row.state == state
  }

  ghost predicate DeliveryOk(s: World, job: JobId, d: Delivery) {
    && d.msg < |s.stream| && s.stream[d.msg].job == job
    && 1 <= d.attempt <= s.stream[d.msg].deliveries
  }

  ghost predicate MessageOk(cfg: Settings, s: World, i: nat)
    requires i < |s.stream|
  {
    var m := s.stream[i];
    && m.job in s.db.jobs
    && m.row < |s.db.outbox| && s.db.outbox[m.row].job == m.job && m.payload == s.db.outbox[m.row].payload
    && m.deliveries <= cfg.maxDeliver
    && (m.fate == Acked ==> InState(s, m.job, Succeeded))
    && (m.fate == Deleted ==> i in s.dlq && WasOver(s.db.jobs[m.job].log))
  }

  ghost predicate IssuedOk(s: World, job: JobId) {
    var issued := Issued(s, job);
    && (forall i :: 0 <= i < |issued| ==> DeliveryOk(s, job, issued[i]))
    && (forall i, k :: 0 <= i < k < |issued| ==> issued[i] != issued[k])
  }

  ghost predicate AfterSuccess(pc: Pc) {
    pc == AckDuplicate || pc == MarkDone || pc == DropClaimDone || pc == AckDone
  }

  /** Between the accepted STARTED and the write that closes the execution. */
  ghost predicate InExecution(pc: Pc) {
    pc == Execute || pc == WriteCompleted || pc == WriteRequeued || pc == WriteFailed
  }

  /** A token belongs to the delivery that drew it; 0 means that none was drawn yet. */
  ghost predicate TokenOk(h: Handler, issued: seq<Delivery>) {
    && (h.token == 0 ==> h.delivery !in issued)
    && (h.token > 0 ==> h.token <= |issued| && issued[h.token - 1] == h.delivery)
    && (h.pc == TakeLease || InsideTry(h.pc) ==> h.token > 0)
    && (h.pc == CheckDone || h.pc == TakeClaim || h.pc == DrawToken ==> h.token == 0)
  }

  /** What the record says about the handler's execution, at each program point. */
  ghost predicate ProgressOk(cfg: Settings, h: Handler, job: Job, executed: seq<Execution>) {
    && (h.pc == TakeLease || h.pc == WriteStarted ==> !Carries(job.log, h.token))
    && (h.pc == TakeLease || h.pc == WriteStarted || h.pc == Execute ==> Execution(h.job, h.token) !in executed)
    && (InExecution(h.pc) ==> StartedBy(job.log, h.token))
    && (h.pc == WriteRequeued ==> h.delivery.attempt < cfg.maxDeliver)
    && (h.pc == WriteFailed ==> cfg.maxDeliver <= h.delivery.attempt)
    && (AfterSuccess(h.pc) ==> job.row.state == Succeeded)
    && (h.pc == DropClaimFailed || h.pc == TermFailed ==> job.row.state == JobState.Failed)
  }

  ghost predicate HandlerOk(cfg: Settings, s: World, w: WorkerId)
    requires w in s.workers
  {
    var h := s.workers[w];
    && h.job in s.db.jobs
    && DeliveryOk(s, h.job, h.delivery)
    && TokenOk(h, Issued(s, h.job))
    && ProgressOk(cfg, h, s.db.jobs[h.job], s.executed)
  }

  ghost predicate EntryAlive(s: World, key: Key)
    requires key in s.kv
  {
    && s.now < s.kv[key].expiresAt
    && (key.DoneKey? ==> InState(s, key.job, Succeeded))
  }

  ghost predicate ExecutionOk(s: World, x: Execution) {
    && x.job in s.db.jobs
    && 1 <= x.token <= |Issued(s, x.job)|
    && StartedBy(s.db.jobs[x.job].log, x.token)
  }

  ghost predicate ListenerOk(s: World, l: string)
    requires l in s.listeners
  {
    var q := s.listeners[l];
    && q.msg < |s.stream|
    && (q.pc == Mark || q.pc == Remove ==> q.msg in s.dlq)
    && (q.pc == Remove ==> s.stream[q.msg].job in s.db.jobs && WasOver(s.db.jobs[s.stream[q.msg].job].log))
  }

  ghost predicate RelayOk(s: World, id: string)
    requires id in s.relays
  {
    var r := s.relays[id];
    && r.sent <= |r.batch|
    && (forall i :: 0 <= i < |r.batch| ==> r.batch[i] < |s.db.outbox|)
    && (forall i :: 0 <= i < r.sent ==> Known(s.stream, r.batch[i]))
  }

  ghost predicate RecordsOk(cfg: Settings, jobs: map<JobId, Job>, issued: map<JobId, seq<Delivery>>) {
    forall j :: j in jobs ==> JobOk(cfg, jobs[j], DrawnFrom(issued, j))
  }

  ghost predicate JobsOk(cfg: Settings, s: World) {
    RecordsOk(cfg, s.db.jobs, s.issued)
  }

  ghost predicate MessagesOk(cfg: Settings, s: World) {
    forall i :: 0 <= i < |s.stream| ==> MessageOk(cfg, s, i)
  }

  ghost predicate HandlersOk(cfg: Settings, s: World) {
    forall w :: w in s.workers ==> HandlerOk(cfg, s, w)
  }

  /** No delivery is handled twice. */
  ghost predicate Apart(s: World) {
    forall v, w :: v in s.workers && w in s.workers && v != w ==> s.workers[v].delivery != s.workers[w].delivery
  }

  ghost predicate ExecutedOk(s: World) {
    && (forall i :: 0 <= i < |s.executed| ==> ExecutionOk(s, s.executed[i]))
    && (forall i, k :: 0 <= i < k < |s.executed| ==> s.executed[i] != s.executed[k])
  }

  ghost predicate Inv(cfg: Settings, s: World) {
    && Coherent(s.db)
    && JobsOk(cfg, s)
    && MessagesOk(cfg, s)
    && (forall j :: IssuedOk(s, j))
    && HandlersOk(cfg, s)
    && Apart(s)
    && (forall k :: k in s.kv ==> EntryAlive(s, k))
    && ExecutedOk(s)
    && (forall l :: l in s.listeners ==> ListenerOk(s, l))
    && (forall id :: id in s.relays ==> RelayOk(s, id))
    && (forall r :: 0 <= r < |s.db.outbox| && s.db.outbox[r].published ==> Known(s.stream, r))
  }

  // ----- the guarantee of every step: history only grows -----

  ghost predicate LogsGrow(a: map<JobId, Job>, b: map<JobId, Job>) {
    a == b || forall j :: j in a ==> j in b && a[j].log <= b[j].log
  }

  ghost predicate SameLetter(m: Message, n: Message) {
    && m.job == n.job && m.row == n.row && m.payload == n.payload
    && m.deliveries <= n.deliveries
    && (!Stored(m.fate) ==> n.fate == m.fate)
  }

  ghost predicate StreamGrows(a: seq<Message>, b: seq<Message>) {
    a == b || (|a| <= |b| && forall i :: 0 <= i < |a| ==> SameLetter(a[i], b[i]))
  }

  ghost predicate OutboxGrows(a: seq<OutboxRow>, b: seq<OutboxRow>) {
    a == b ||
    (|a| <= |b| && forall r :: 0 <= r < |a| ==>
       a[r].job == b[r].job && a[r].payload == b[r].payload && (a[r].published ==> b[r].published))
  }

  ghost predicate CountersGrow(s: World, t: World) {
    s.issued == t.issued || forall j :: Issued(s, j) <= Issued(t, j)
  }

  ghost predicate Grows(s: World, t: World) {
    && s.now <= t.now
    && LogsGrow(s.db.jobs, t.db.jobs)
    && StreamGrows(s.stream, t.stream)
    && OutboxGrows(s.db.outbox, t.db.outbox)
    && CountersGrow(s, t)
    && s.executed <= t.executed
    && s.dlq <= t.dlq
  }

  lemma EffectGrows(s: World, h: Handler, a: Action)
    ensures Grows(s, Effect(s, h, a))
  {}

  lemma WorkerGrows(cfg: Settings, s: World, w: WorkerId, env: Env)
    requires w in s.workers
    ensures Grows(s, WorkerStep(cfg, s, w, env))
  {
    var h := s.workers[w];
    EffectGrows(s, h, ActionAt(cfg, w, h, env));
  }

  lemma RelayGrows(s: World, id: string, inWindow: bool)
    requires id in s.relays
    ensures Grows(s, RelayStep(s, id, inWindow))
  {}

  lemma ResolveGrows(stream: seq<Message>, msg: nat, fate: Fate)
    ensures StreamGrows(stream, Resolve(stream, msg, fate))
  {}

  lemma AdvisoryGrows(stream: seq<Message>, msg: nat, advisory: Advisory)
    requires msg < |stream|
    ensures StreamGrows(stream, stream[msg := stream[msg].(advisory := advisory)])
  {}

  lemma RecordedGrows(db: Database, id: JobId, w: Write)
    ensures LogsGrow(db.jobs, Recorded(db, id, w).jobs) && Recorded(db, id, w).outbox == db.outbox
  {}

  lemma InsertedGrows(db: Database, id: JobId, key: string, payload: Payload)
    ensures var after := Inserted(db, id, key, payload);
            LogsGrow(db.jobs, after.jobs) && OutboxGrows(db.outbox, after.outbox)
  {}

  lemma ReinjectedGrows(db: Database, id: JobId)
    ensures var after := Reinjected(db, id); LogsGrow(db.jobs, after.jobs) && OutboxGrows(db.outbox, after.outbox)
  {
    RecordedGrows(db, id, ReplayWrite);
  }

  lemma ListenerGrows(s: World, l: string, inWindow: bool)
    requires l in s.listeners
    ensures Grows(s, ListenerStep(s, l, inWindow))
  {
    ListenerFrame(s, l, inWindow);
    var msg := s.listeners[l].msg;
    if msg < |s.stream| {
      var m := s.stream[msg];
      match s.listeners[l].pc
      case Load =>
      case Copy =>
      case Mark => RecordedGrows(s.db, m.job, DeadLetterWrite(m));
      case Remove => ResolveGrows(s.stream, msg, Deleted);
      case Settle => AdvisoryGrows(s.stream, msg, Advisory.Settled);
    }
  }

  /** A quarantine works on the database, the stream and the DLQ alone. */
  lemma ListenerFrame(s: World, l: string, inWindow: bool)
    requires l in s.listeners
    ensures var t := ListenerStep(s, l, inWindow);
            && t.now == s.now && t.kv == s.kv && t.issued == s.issued
            && t.workers == s.workers && t.relays == s.relays && t.executed == s.executed
  {
    if s.listeners[l].msg < |s.stream| {
      match s.listeners[l].pc
      case Load =>
      case Copy =>
      case Mark =>
      case Remove =>
      case Settle =>
    }
  }

  lemma DeliverGrows(cfg: Settings, s: World, w: WorkerId, msg: nat)
    requires CanDeliver(cfg, s, w, msg)
    ensures Grows(s, Delivered(cfg, s, w, msg))
  {}

  lemma WorkUnfolds(cfg: Settings, s: World, w: WorkerId, env: Env)
    ensures Next(cfg, s, Work(w, env)) == if w in s.workers then WorkerStep(cfg, s, w, env) else s
  {}

  lemma DeliverUnfolds(cfg: Settings, s: World, w: WorkerId, msg: nat)
    ensures Next(cfg, s, Deliver(w, msg)) == if CanDeliver(cfg, s, w, msg) then Delivered(cfg, s, w, msg) else s
  {}

  lemma RelayUnfolds(cfg: Settings, s: World, id: string, inWindow: bool)
    ensures Next(cfg, s, RelayWork(id, inWindow)) == if id in s.relays then RelayStep(s, id, inWindow) else s
  {}

  lemma ListenUnfolds(cfg: Settings, s: World, l: string, inWindow: bool)
    ensures Next(cfg, s, Listening(l, inWindow)) == if l in s.listeners then ListenerStep(s, l, inWindow) else s
  {}

  /** A step that is not the move of a process. */
  ghost predicate Ambient(step: Step) {
    !step.RelayWork? && !step.Listening? && !step.Work? && !step.Deliver?
  }

  lemma AmbientGrows(cfg: Settings, s: World, step: Step)
    requires Ambient(step)
    ensures Grows(s, Next(cfg, s, step))
  {
    match step
    case SubmitJob(id, key, payload) => InsertedGrows(s.db, id, key, payload);
    case ReplayJob(id) => ReinjectedGrows(s.db, id);
    case Tick(_) =>
    case Lose(_) =>
    case RelaySelect(_) =>
    case RelayDie(_) =>
    case Advise(msg) => if CanAdvise(cfg, s, msg) { AdvisoryGrows(s.stream, msg, Raised); }
    case Raise(_) =>
    case Die(_) =>
    case Fetch(_, _) =>
    case Swallow(_) =>
    case ListenerDie(_) =>
  }

  /** Logs, streams, counters and the outbox only ever grow, whatever the step. */
  lemma NextGrows(cfg: Settings, s: World, step: Step)
    ensures Grows(s, Next(cfg, s, step))
  {
    match step
    case RelayWork(id, inWindow) => if id in s.relays { RelayGrows(s, id, inWindow); }
    case Listening(l, inWindow) => if l in s.listeners { ListenerGrows(s, l, inWindow); }
    case Work(w, env) => if w in s.workers { WorkerGrows(cfg, s, w, env); }
    case Deliver(w, msg) => if CanDeliver(cfg, s, w, msg) { DeliverGrows(cfg, s, w, msg); }
    case _ => AmbientGrows(cfg, s, step);
  }
}
