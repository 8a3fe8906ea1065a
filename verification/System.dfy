/**
 The whole platform as a step system: the shared stores, the broker, and every process that is
 alive, each at its program counter. One step is one awaited effect (a key-value call, a database
 transaction, a broker call), a broker decision, the passing of time, or a death.

 `Next` is total: a step that is not possible leaves the world unchanged, so a run is any sequence
 of steps whatever.
 */
module System {
  import opened Core
  import opened Domain
  import opened Keys
  import opened Records
  import KV = TimedStore

  /** Claims and leases share one TTL, as the worker configures them. */
  datatype Settings = Settings(
    leaseTtl: real, doneTtl: real, ackWait: real, maxDeliver: nat, batchSize: nat)

  // ----- the broker -----

  /** The `attempt`-th delivery of the stream message `msg`. */
  datatype Delivery = Delivery(msg: nat, attempt: nat)

  datatype Fate = Ready(at: real) | InFlight(until: real) | Acked | Termed | Deleted

  predicate Stored(fate: Fate) {
    fate.Ready? || fate.InFlight?
  }

  /** The max-deliveries advisory of a message, captured in its own durable stream. */
  datatype Advisory = NotRaised | Raised | Settled

  /** A message of the work stream; its sequence number is its index, `row` the outbox row it came from. */
  datatype Message = Message(
    job: JobId, row: nat, payload: Payload, deliveries: nat, fate: Fate, advisory: Advisory)

  /** When a stored message can be handed out. */
  function DueAt(fate: Fate): real
    requires Stored(fate)
  {
    if fate.Ready? then fate.at else fate.until
  }

  /** Nobody is working on the message as far as the broker can tell. */
  predicate Due(m: Message, now: real) {
    Stored(m.fate) && DueAt(m.fate) <= now
  }

  /** Ack, nak, term and delete act on a message that is still stored and are ignored otherwise. */
  function Resolve(stream: seq<Message>, msg: nat, fate: Fate): seq<Message> {
    if msg < |stream| && Stored(stream[msg].fate) then stream[msg := stream[msg].(fate := fate)] else stream
  }

  predicate Known(stream: seq<Message>, row: nat) {
    exists m :: 0 <= m < |stream| && stream[m].row == row
  }

  // ----- the processes -----

  /** Where `Worker.handle` stands: the effect it performs next. */
  datatype Pc =
    | NakPoison
    | CheckDone | AckDuplicate
    | TakeClaim | NakBusy
    | DrawToken | TakeLease | DropClaimBusy
    | WriteStarted | Execute
    | WriteCompleted | MarkDone | DropClaimDone | AckDone
    | WriteRequeued | DropClaimRetry | NakRetry
    | WriteFailed | DropClaimFailed | TermFailed
    | DropClaimObsolete | TermObsolete
    | ReleaseLease

  /** A running `handle`: `token` is 0 until one is drawn, `claimUntil` the expiry of its claim. */
  datatype Handler = Handler(
    job: JobId, delivery: Delivery, pc: Pc, token: nat, claimUntil: real, result: nat)

  /** A `relay_once` transaction holding the row locks of its batch. */
  datatype Relay = Relay(batch: seq<nat>, sent: nat)

  datatype QuarantinePc = Load | Copy | Mark | Remove | Settle

  datatype Quarantine = Quarantine(msg: nat, pc: QuarantinePc)

  /** One call of the job's work, under the lease `token` of `job`. */
  datatype Execution = Execution(job: JobId, token: nat)

  /**
   `kv` holds the live entries. `issued` is the token counter of each job, kept as the deliveries
   that drew the tokens 1, 2, ...; `executed` records the calls of `execute`.
   */
  datatype World = World(
    now: real,
    kv: map<Key, KV.Entry<Owner>>,
    issued: map<JobId, seq<Delivery>>,
    db: Database,
    stream: seq<Message>,
    dlq: seq<nat>,
    workers: map<WorkerId, Handler>,
    relays: map<string, Relay>,
    listeners: map<string, Quarantine>,
    executed: seq<Execution>)

  const Genesis := World(0.0, map[], map[], Database(map[], map[], []), [], [], map[], map[], map[], [])

  function DrawnFrom(issued: map<JobId, seq<Delivery>>, job: JobId): seq<Delivery> {
    if job in issued then issued[job] else []
  }

  function Issued(s: World, job: JobId): seq<Delivery> {
    DrawnFrom(s.issued, job)
  }

  // ----- Worker.handle -----

  /** What the outside world decides during an effect: the job's outcome and the jitter of a nak. */
  datatype Env = Env(succeeds: bool, result: nat, jitter: real)

  datatype Action =
    | Look(key: Key)
    | Take(key: Key, owner: Owner, ttl: real)
    | Drop(key: Key, owner: Owner)
    | Draw
    | Commit(write: Write)
    | Call
    | Ack | Nak(delay: real) | Term

  /** min(2^attempt, 30) seconds. */
  function Backoff(attempt: nat): real {
    if Pow2(attempt) <= 30 then Pow2(attempt) as real else 30.0
  }

  function Pow2(n: nat): nat {
    if n == 0 then 1 else 2 * Pow2(n - 1)
  }

  function Jitter(env: Env): real {
    if 4.0 <= env.jitter <= 9.0 then env.jitter else 4.0
  }

  function WorkerWrite(h: Handler, event: EventType): Write {
    Write(event, h.delivery.attempt, Some(h.token), if event == Completed then Some(h.result) else None)
  }

  /** The effect each program point awaits. */
  function ActionAt(cfg: Settings, w: WorkerId, h: Handler, env: Env): Action {
    var delivery := Owner(w, h.delivery.attempt);
    var holder := Owner(w, h.token);
    match h.pc
    case NakPoison => Nak(0.5)
    case CheckDone => Look(DoneKey(h.job))
    case AckDuplicate => Ack
    case TakeClaim => Take(ClaimKey(h.job), delivery, cfg.leaseTtl)
    case NakBusy => Nak(Jitter(env))
    case DrawToken => Draw
    case TakeLease => Take(LeaseKey(h.job), holder, cfg.leaseTtl)
    case DropClaimBusy => Drop(ClaimKey(h.job), delivery)
    case WriteStarted => Commit(WorkerWrite(h, Started))
    case Execute => Call
    case WriteCompleted => Commit(WorkerWrite(h, Completed))
    case MarkDone => Take(DoneKey(h.job), delivery, cfg.doneTtl)
    case DropClaimDone => Drop(ClaimKey(h.job), delivery)
    case AckDone => Ack
    case WriteRequeued => Commit(WorkerWrite(h, Requeued))
    case DropClaimRetry => Drop(ClaimKey(h.job), delivery)
    case NakRetry => Nak(Backoff(h.delivery.attempt))
    case WriteFailed => Commit(WorkerWrite(h, EventType.Failed))
    case DropClaimFailed => Drop(ClaimKey(h.job), delivery)
    case TermFailed => Term
    case DropClaimObsolete => Drop(ClaimKey(h.job), delivery)
    case TermObsolete => Term
    case ReleaseLease => Drop(LeaseKey(h.job), holder)
  }

  datatype Reply = Yes | No | Ruled(verdict: Verdict)

  function Ask(s: World, h: Handler, a: Action, env: Env): Reply {
    match a
    case Look(key) => if key in s.kv then Yes else No
    case Take(key, _, _) => if key in s.kv then No else Yes
    case Commit(w) => Ruled(JudgeIn(s.db, h.job, w))
    case Call => if env.succeeds then Yes else No
    case _ => Yes
  }

  function Effect(s: World, h: Handler, a: Action): World {
    match a
    case Look(_) => s
    case Take(key, owner, ttl) => s.(kv := KV.Take(s.kv, s.now, key, owner, ttl))
    case Drop(key, owner) => s.(kv := KV.Drop(s.kv, key, owner))
    case Draw => s.(issued := s.issued[h.job := Issued(s, h.job) + [h.delivery]])
    case Commit(w) => s.(db := Recorded(s.db, h.job, w))
    case Call => s.(executed := s.executed + [Execution(h.job, h.token)])
    case Ack => s.(stream := Resolve(s.stream, h.delivery.msg, Acked))
    case Nak(delay) => s.(stream := Resolve(s.stream, h.delivery.msg, Ready(s.now + delay)))
    case Term => s.(stream := Resolve(s.stream, h.delivery.msg, Termed))
  }

  /** What the handler remembers of the effect. */
  function Learn(s: World, h: Handler, a: Action, env: Env): Handler {
    match a
    case Draw => h.(token := |Issued(s, h.job)| + 1)
    case Take(key, _, ttl) => if key.ClaimKey? && key !in s.kv then h.(claimUntil := s.now + ttl) else h
    case Call => h.(result := env.result)
    case _ => h
  }

  /** Where control goes; `None` leaves `handle`. An error inside the failure branch leaves by `finally`. */
  function Onward(cfg: Settings, h: Handler, reply: Reply): Option<Pc> {
    match h.pc
    case NakPoison => None
    case CheckDone => Some(if reply == Yes then AckDuplicate else TakeClaim)
    case AckDuplicate => None
    case TakeClaim => Some(if reply == Yes then DrawToken else NakBusy)
    case NakBusy => None
    case DrawToken => Some(TakeLease)
    case TakeLease => Some(if reply == Yes then WriteStarted else DropClaimBusy)
    case DropClaimBusy => Some(NakBusy)
    case WriteStarted => Some(Judged(reply, Execute))
    case Execute =>
      Some(if reply == Yes then WriteCompleted
           else if h.delivery.attempt < cfg.maxDeliver then WriteRequeued
           else WriteFailed)
    case WriteCompleted => Some(Judged(reply, MarkDone))
    case MarkDone => Some(DropClaimDone)
    case DropClaimDone => Some(AckDone)
    case AckDone => Some(ReleaseLease)
    case WriteRequeued => Some(if reply == Ruled(Accepted) then DropClaimRetry else ReleaseLease)
    case DropClaimRetry => Some(NakRetry)
    case NakRetry => Some(ReleaseLease)
    case WriteFailed => Some(if reply == Ruled(Accepted) then DropClaimFailed else ReleaseLease)
    case DropClaimFailed => Some(TermFailed)
    case TermFailed => Some(ReleaseLease)
    case DropClaimObsolete => Some(TermObsolete)
    case TermObsolete => Some(ReleaseLease)
    case ReleaseLease => None
  }

  /** The two `except` clauses: an illegal transition obsoletes the delivery, anything else stands down. */
  function Judged(reply: Reply, accepted: Pc): Pc {
    if reply == Ruled(Accepted) then accepted
    else if reply == Ruled(Illegal) then DropClaimObsolete
    else ReleaseLease
  }

  predicate InsideTry(pc: Pc) {
    !pc.NakPoison? && !pc.CheckDone? && !pc.AckDuplicate? && !pc.TakeClaim? && !pc.NakBusy?
    && !pc.DrawToken? && !pc.TakeLease? && !pc.DropClaimBusy?
  }

  function Proceed(s: World, w: WorkerId, h: Handler, next: Option<Pc>): World {
    s.(workers := if next.Some? then s.workers[w := h.(pc := next.value)] else s.workers - {w})
  }

  function WorkerStep(cfg: Settings, s: World, w: WorkerId, env: Env): World
    requires w in s.workers
  {
    var h := s.workers[w];
    var a := ActionAt(cfg, w, h, env);
    Proceed(Effect(s, h, a), w, Learn(s, h, a, env), Onward(cfg, h, Ask(s, h, a, env)))
  }

  // ----- relay and listener -----

  /** The first `limit` unpublished rows from index i on that nobody has locked. */
  function SelectFrom(outbox: seq<OutboxRow>, locked: set<nat>, limit: nat, i: nat): seq<nat>
    decreases |outbox| - i
  {
    if i >= |outbox| || limit == 0 then []
    else if outbox[i].published || i in locked then SelectFrom(outbox, locked, limit, i + 1)
    else [i] + SelectFrom(outbox, locked, limit - 1, i + 1)
  }

  function Locked(relays: map<string, Relay>): set<nat> {
    set id, i | id in relays && 0 <= i < |relays[id].batch| :: relays[id].batch[i]
  }

  function MarkPublished(outbox: seq<OutboxRow>, rows: seq<nat>): seq<OutboxRow> {
    seq(|outbox|, i requires 0 <= i < |outbox| =>
      if i in rows then outbox[i].(published := true) else outbox[i])
  }

  /** The broker stores a publication unless its message id is a duplicate inside the window. */
  function Accept(stream: seq<Message>, row: nat, o: OutboxRow, now: real, inWindow: bool): seq<Message> {
    if inWindow && Known(stream, row) then stream
    else stream + [Message(o.job, row, o.payload, 0, Ready(now), NotRaised)]
  }

  function Published(s: World, row: nat, inWindow: bool): seq<Message> {
    if row < |s.db.outbox| then Accept(s.stream, row, s.db.outbox[row], s.now, inWindow) else s.stream
  }

  function RelayStep(s: World, id: string, inWindow: bool): World
    requires id in s.relays
  {
    var r := s.relays[id];
    if r.sent < |r.batch| then
      s.(stream := Published(s, r.batch[r.sent], inWindow), relays := s.relays[id := r.(sent := r.sent + 1)])
    else
      s.(db := s.db.(outbox := MarkPublished(s.db.outbox, r.batch)), relays := s.relays - {id})
  }

  function DeadLetterWrite(m: Message): Write {
    Write(DeadLettered, m.deliveries, None, None)
  }

  function Listen(s: World, l: string, msg: nat, pc: QuarantinePc): World {
    s.(listeners := s.listeners[l := Quarantine(msg, pc)])
  }

  /** The DLQ stores a copy unless its message id is a duplicate inside the window. */
  function Copied(dlq: seq<nat>, msg: nat, inWindow: bool): seq<nat> {
    if inWindow && msg in dlq then dlq else dlq + [msg]
  }

  function ListenerStep(s: World, l: string, inWindow: bool): World
    requires l in s.listeners
  {
    var q := s.listeners[l];
    if q.msg >= |s.stream| then s else
    var m := s.stream[q.msg];
    match q.pc
    case Load => Listen(s, l, q.msg, if Stored(m.fate) then Copy else Settle)
    case Copy => Listen(s.(dlq := Copied(s.dlq, q.msg, inWindow)), l, q.msg, Mark)
    case Mark =>
      var verdict := JudgeIn(s.db, m.job, DeadLetterWrite(m));
      Listen(s.(db := Recorded(s.db, m.job, DeadLetterWrite(m))), l, q.msg,
             if verdict == Accepted || verdict == Illegal then Remove else Settle)
    case Remove => Listen(s.(stream := Resolve(s.stream, q.msg, Deleted)), l, q.msg, Settle)
    case Settle =>
      s.(stream := s.stream[q.msg := m.(advisory := Advisory.Settled)], listeners := s.listeners - {l})
  }

  // ----- the steps -----

  datatype Step =
    | SubmitJob(id: JobId, key: string, payload: Payload)
    | ReplayJob(id: JobId)
    | Tick(seconds: real)
    | Lose(entry: Key)                                // the key-value store drops an entry early
    | RelaySelect(relay: string)
    | RelayWork(relay: string, inWindow: bool)        // publish the next row, or mark and commit
    | RelayDie(relay: string)
    | Deliver(worker: WorkerId, msg: nat)
    | Advise(msg: nat)
    | Work(worker: WorkerId, env: Env)
    | Raise(worker: WorkerId)                         // an unexpected error inside the try block
    | Die(worker: WorkerId)
    | Fetch(listener: string, msg: nat)
    | Listening(listener: string, inWindow: bool)
    | Swallow(listener: string)                       // quarantine raises; the loop logs and acks
    | ListenerDie(listener: string)

  predicate CanDeliver(cfg: Settings, s: World, w: WorkerId, msg: nat) {
    w !in s.workers && msg < |s.stream| && Due(s.stream[msg], s.now) && s.stream[msg].deliveries < cfg.maxDeliver
  }

  function Delivered(cfg: Settings, s: World, w: WorkerId, msg: nat): World
    requires CanDeliver(cfg, s, w, msg)
  {
    var m := s.stream[msg];
    var n := m.deliveries + 1;
    s.(stream := s.stream[msg := m.(deliveries := n, fate := InFlight(s.now + cfg.ackWait))],
       workers := s.workers[w := Handler(m.job, Delivery(msg, n),
                                         if m.payload.poison then NakPoison else CheckDone, 0, 0.0, 0)])
  }

  predicate CanAdvise(cfg: Settings, s: World, msg: nat) {
    && msg < |s.stream| && Due(s.stream[msg], s.now)
    && cfg.maxDeliver <= s.stream[msg].deliveries && s.stream[msg].advisory == NotRaised
  }

  function Next(cfg: Settings, s: World, step: Step): World {
    match step
    case SubmitJob(id, key, payload) => s.(db := Inserted(s.db, id, key, payload))
    case ReplayJob(id) => s.(db := Reinjected(s.db, id))
    case Tick(dt) => if dt < 0.0 then s else s.(now := s.now + dt, kv := KV.Sweep(s.kv, s.now + dt))
    case Lose(key) => s.(kv := s.kv - {key})
    case RelaySelect(id) =>
      if id in s.relays then s
      else s.(relays := s.relays[id := Relay(SelectFrom(s.db.outbox, Locked(s.relays), cfg.batchSize, 0), 0)])
    case RelayWork(id, inWindow) => if id in s.relays then RelayStep(s, id, inWindow) else s
    case RelayDie(id) => s.(relays := s.relays - {id})
    case Deliver(w, msg) => if CanDeliver(cfg, s, w, msg) then Delivered(cfg, s, w, msg) else s
    case Advise(msg) =>
      if CanAdvise(cfg, s, msg) then s.(stream := s.stream[msg := s.stream[msg].(advisory := Raised)]) else s
    case Work(w, env) => if w in s.workers then WorkerStep(cfg, s, w, env) else s
    case Raise(w) =>
      if w in s.workers && InsideTry(s.workers[w].pc)
      then s.(workers := s.workers[w := s.workers[w].(pc := ReleaseLease)]) else s
    case Die(w) => s.(workers := s.workers - {w})
    case Fetch(l, msg) =>
      if l !in s.listeners && msg < |s.stream| && s.stream[msg].advisory == Raised
      then Listen(s, l, msg, Load) else s
    case Listening(l, inWindow) => if l in s.listeners then ListenerStep(s, l, inWindow) else s
    case Swallow(l) =>
      if l in s.listeners then Listen(s, l, s.listeners[l].msg, Settle) else s
    case ListenerDie(l) => s.(listeners := s.listeners - {l})
  }

  // ----- runs -----

  /** `ws[i + 1]` is what `steps[i]` makes of `ws[i]`. */
  ghost predicate Linked(cfg: Settings, ws: seq<World>, steps: seq<Step>, i: nat)
    requires |ws| == |steps| + 1 && i < |steps|
  {
    ws[i + 1] == Next(cfg, ws[i], steps[i])
  }

  /** The worlds that the steps lead through, from any world on. */
  ghost predicate Path(cfg: Settings, ws: seq<World>, steps: seq<Step>) {
    |ws| == |steps| + 1 && forall i :: 0 <= i < |steps| ==> Linked(cfg, ws, steps, i)
  }

  function Last(ws: seq<World>): World
    requires ws != []
  {
    ws[|ws| - 1]
  }

  /** A run is a path from the empty world. */
  ghost predicate IsRun(cfg: Settings, ws: seq<World>, steps: seq<Step>) {
    Path(cfg, ws, steps) && ws[0] == Genesis
  }

  ghost predicate Reachable(cfg: Settings, s: World) {
    exists ws, steps :: IsRun(cfg, ws, steps) && Last(ws) == s
  }

  lemma PathExtends(cfg: Settings, ws: seq<World>, steps: seq<Step>, step: Step)
    requires Path(cfg, ws, steps)
    ensures Path(cfg, ws + [Next(cfg, Last(ws), step)], steps + [step])
  {
    var t := Next(cfg, Last(ws), step);
    forall i | 0 <= i < |steps| + 1 ensures Linked(cfg, ws + [t], steps + [step], i) {
      if i < |steps| { StaysLinked(cfg, ws, steps, t, step, i); }
    }
  }

  lemma StaysLinked(cfg: Settings, ws: seq<World>, steps: seq<Step>, t: World, step: Step, i: nat)
    requires |ws| == |steps| + 1 && i < |steps| && Linked(cfg, ws, steps, i)
    ensures Linked(cfg, ws + [t], steps + [step], i)
  {
    assert (ws + [t])[i] == ws[i] && (ws + [t])[i + 1] == ws[i + 1] && (steps + [step])[i] == steps[i];
  }

  lemma ReachableNext(cfg: Settings, s: World, step: Step)
    requires Reachable(cfg, s)
    ensures Reachable(cfg, Next(cfg, s, step))
  {
    var ws, steps :| IsRun(cfg, ws, steps) && Last(ws) == s;
    PathExtends(cfg, ws, steps, step);
    assert IsRun(cfg, ws + [Next(cfg, s, step)], steps + [step]);
  }

  lemma GenesisIsReachable(cfg: Settings)
    ensures Reachable(cfg, Genesis)
  {
    assert IsRun(cfg, [Genesis], []);
  }

  /** Every sequence of steps whatever is the sequence of some run. */
  lemma {:induction false} EverySequenceRuns(cfg: Settings, steps: seq<Step>)
    ensures exists ws :: IsRun(cfg, ws, steps)
  {
    if steps == [] {
      assert IsRun(cfg, [Genesis], []);
    } else {
      var init, last := steps[..|steps| - 1], steps[|steps| - 1];
      EverySequenceRuns(cfg, init);
      var ws :| IsRun(cfg, ws, init);
      PathExtends(cfg, ws, init, last);
      assert init + [last] == steps;
      assert IsRun(cfg, ws + [Next(cfg, Last(ws), last)], steps);
    }
  }
}
