/**
 `Worker.handle` as it is written, over the stores as they are written, and the proof that it does
 what the step system's program counter does when nobody interrupts it.
 */
module Handling {
  import opened Core
  import opened Domain
  import opened Keys
  import opened TimedStore
  import opened Leases
  import opened Records
  import opened System
  import opened Safety
  import opened WorkerSteps
  import opened Broker

  /** From s the effects of `w`, with nobody else moving, lead to t. */
  ghost predicate Alone(cfg: Settings, s: World, t: World, w: WorkerId, env: Env) {
    exists ws, steps :: Path(cfg, ws, steps) && ws[0] == s && Last(ws) == t && OnlyWork(steps, w, env)
  }

  ghost predicate OnlyWork(steps: seq<Step>, w: WorkerId, env: Env) {
    forall i :: 0 <= i < |steps| ==> steps[i] == Work(w, env)
  }

  lemma AloneStarts(cfg: Settings, s: World, w: WorkerId, env: Env)
    ensures Alone(cfg, s, s, w, env)
  {
    assert Path(cfg, [s], []) && OnlyWork([], w, env);
  }

  lemma AloneGoesOn(cfg: Settings, s: World, t: World, w: WorkerId, env: Env)
    requires Alone(cfg, s, t, w, env)
    ensures Alone(cfg, s, Next(cfg, t, Work(w, env)), w, env)
  {
    var ws, steps :| Path(cfg, ws, steps) && ws[0] == s && Last(ws) == t && OnlyWork(steps, w, env);
    PathExtends(cfg, ws, steps, Work(w, env));
    assert OnlyWork(steps + [Work(w, env)], w, env);
  }

  /** One effect, by its action. */
  lemma WorkIs(cfg: Settings, s: World, w: WorkerId, env: Env)
    requires w in s.workers
    ensures var h := s.workers[w]; var a := ActionAt(cfg, w, h, env); var t := Next(cfg, s, Work(w, env));
            var next := Onward(cfg, h, Ask(s, h, a, env));
            && t.now == s.now
            && t.kv == Effect(s, h, a).kv && t.db == Effect(s, h, a).db && t.stream == Effect(s, h, a).stream
            && t.issued == Effect(s, h, a).issued
            && t.workers
               == if next.Some? then s.workers[w := Learn(s, h, a, env).(pc := next.value)] else s.workers - {w}
  {
    var h := s.workers[w];
    EffectLeavesWorkers(s, h, ActionAt(cfg, w, h, env));
  }

  lemma EffectLeavesWorkers(s: World, h: Handler, a: Action)
    ensures Effect(s, h, a).workers == s.workers && Effect(s, h, a).now == s.now
  {}

  /** Where a database write sends control. */
  ghost function AfterWrite(pc: Pc, v: Verdict): Pc {
    match pc
    case WriteStarted => Judged(Ruled(v), Execute)
    case WriteCompleted => Judged(Ruled(v), MarkDone)
    case WriteRequeued => if v == Accepted then DropClaimRetry else ReleaseLease
    case _ => if v == Accepted then DropClaimFailed else ReleaseLease
  }

  ghost function Delay(h: Handler, env: Env): real {
    match h.pc
    case NakPoison => 0.5
    case NakBusy => Jitter(env)
    case _ => Backoff(h.delivery.attempt)
  }

  ghost predicate Releasing(pc: Pc) {
    pc == DropClaimBusy || pc == DropClaimRetry || pc == DropClaimFailed || pc == DropClaimObsolete
  }

  ghost function AfterRelease(pc: Pc): Pc {
    match pc
    case DropClaimBusy => NakBusy
    case DropClaimRetry => NakRetry
    case DropClaimFailed => TermFailed
    case _ => TermObsolete
  }

  /** The step system moves, by effects of `w` alone, and leaves the stores like this. */
  ghost predicate Moved(
      cfg: Settings, start: World, s: World, t: World, kv: map<Key, Entry<Owner>>, db: Database, stream: seq<Message>,
      issued: map<JobId, seq<Delivery>>, w: WorkerId, env: Env)
  {
    && Alone(cfg, start, t, w, env)
    && t.now == s.now && t.kv == kv && t.db == db && t.stream == stream && t.issued == issued
  }

  /** The handler of `w`, if it has not left. */
  ghost function At(s: World, w: WorkerId): Option<Handler> {
    if w in s.workers then Some(s.workers[w]) else None
  }

  lemma Writes(cfg: Settings, start: World, s: World, w: WorkerId, env: Env) returns (t: World)
    requires Alone(cfg, start, s, w, env) && w in s.workers && EventAt(s.workers[w].pc).Some?
    ensures var h := s.workers[w]; var write := WorkerWrite(h, EventAt(h.pc).value);
            && Moved(cfg, start, s, t, s.kv, Recorded(s.db, h.job, write), s.stream, s.issued, w, env)
            && At(t, w) == Some(h.(pc := AfterWrite(h.pc, JudgeIn(s.db, h.job, write))))
  {
    t := Next(cfg, s, Work(w, env));
    WorkIs(cfg, s, w, env);
    AloneGoesOn(cfg, start, s, w, env);
    match s.workers[w].pc
    case WriteStarted =>
    case WriteCompleted =>
    case WriteRequeued =>
    case WriteFailed =>
  }

  lemma Acks(cfg: Settings, start: World, s: World, w: WorkerId, env: Env) returns (t: World)
    requires Alone(cfg, start, s, w, env) && w in s.workers
    requires s.workers[w].pc == AckDuplicate || s.workers[w].pc == AckDone
    ensures var h := s.workers[w];
            && Moved(cfg, start, s, t, s.kv, s.db, Resolve(s.stream, h.delivery.msg, Acked), s.issued, w, env)
            && At(t, w) == if h.pc == AckDone then Some(h.(pc := ReleaseLease)) else None
  {
    t := Next(cfg, s, Work(w, env));
    WorkIs(cfg, s, w, env);
    AloneGoesOn(cfg, start, s, w, env);
    match s.workers[w].pc
    case AckDuplicate =>
    case AckDone =>
  }

  lemma Naks(cfg: Settings, start: World, s: World, w: WorkerId, env: Env) returns (t: World)
    requires Alone(cfg, start, s, w, env) && w in s.workers
    requires s.workers[w].pc == NakPoison || s.workers[w].pc == NakBusy || s.workers[w].pc == NakRetry
    ensures var h := s.workers[w];
            var stream := Resolve(s.stream, h.delivery.msg, Ready(s.now + Delay(h, env)));
            && Moved(cfg, start, s, t, s.kv, s.db, stream, s.issued, w, env)
            && At(t, w) == if h.pc == NakRetry then Some(h.(pc := ReleaseLease)) else None
  {
    t := Next(cfg, s, Work(w, env));
    WorkIs(cfg, s, w, env);
    AloneGoesOn(cfg, start, s, w, env);
    match s.workers[w].pc
    case NakPoison =>
    case NakBusy =>
    case NakRetry =>
  }

  lemma Terms(cfg: Settings, start: World, s: World, w: WorkerId, env: Env) returns (t: World)
    requires Alone(cfg, start, s, w, env) && w in s.workers
    requires s.workers[w].pc == TermFailed || s.workers[w].pc == TermObsolete
    ensures var h := s.workers[w];
            && Moved(cfg, start, s, t, s.kv, s.db, Resolve(s.stream, h.delivery.msg, Termed), s.issued, w, env)
            && At(t, w) == Some(h.(pc := ReleaseLease))
  {
    t := Next(cfg, s, Work(w, env));
    WorkIs(cfg, s, w, env);
    AloneGoesOn(cfg, start, s, w, env);
    match s.workers[w].pc
    case TermFailed =>
    case TermObsolete =>
  }

  lemma DropsClaim(cfg: Settings, start: World, s: World, w: WorkerId, env: Env) returns (t: World)
    requires Alone(cfg, start, s, w, env) && w in s.workers && Releasing(s.workers[w].pc)
    ensures var h := s.workers[w]; var kv := TimedStore.Drop(s.kv, ClaimKey(h.job), Owner(w, h.delivery.attempt));
            && Moved(cfg, start, s, t, kv, s.db, s.stream, s.issued, w, env)
            && At(t, w) == Some(h.(pc := AfterRelease(h.pc)))
  {
    t := Next(cfg, s, Work(w, env));
    WorkIs(cfg, s, w, env);
    AloneGoesOn(cfg, start, s, w, env);
    assert ActionAt(cfg, w, s.workers[w], env)
        == Action.Drop(ClaimKey(s.workers[w].job), Owner(w, s.workers[w].delivery.attempt));
    match s.workers[w].pc
    case DropClaimBusy =>
    case DropClaimRetry =>
    case DropClaimFailed =>
    case DropClaimObsolete =>
  }

  lemma DropsClaimDone(cfg: Settings, start: World, s: World, w: WorkerId, env: Env) returns (t: World)
    requires Alone(cfg, start, s, w, env) && w in s.workers && s.workers[w].pc == DropClaimDone
    ensures var h := s.workers[w]; var kv := TimedStore.Drop(s.kv, ClaimKey(h.job), Owner(w, h.delivery.attempt));
            && Moved(cfg, start, s, t, kv, s.db, s.stream, s.issued, w, env)
            && At(t, w) == Some(h.(pc := AckDone))
  {
    t := Next(cfg, s, Work(w, env));
    WorkIs(cfg, s, w, env);
    AloneGoesOn(cfg, start, s, w, env);
  }

  lemma DropsLease(cfg: Settings, start: World, s: World, w: WorkerId, env: Env) returns (t: World)
    requires Alone(cfg, start, s, w, env) && w in s.workers && s.workers[w].pc == ReleaseLease
    ensures var h := s.workers[w]; var kv := TimedStore.Drop(s.kv, LeaseKey(h.job), Owner(w, h.token));
            Moved(cfg, start, s, t, kv, s.db, s.stream, s.issued, w, env) && At(t, w) == None
  {
    t := Next(cfg, s, Work(w, env));
    assert ActionAt(cfg, w, s.workers[w], env) == Action.Drop(LeaseKey(s.workers[w].job), Owner(w, s.workers[w].token));
    assert Onward(cfg, s.workers[w], Yes) == None;
    WorkIs(cfg, s, w, env);
    AloneGoesOn(cfg, start, s, w, env);
  }

  lemma Calls(cfg: Settings, start: World, s: World, w: WorkerId, env: Env) returns (t: World)
    requires Alone(cfg, start, s, w, env) && w in s.workers && s.workers[w].pc == Execute
    ensures var h := s.workers[w];
            && Moved(cfg, start, s, t, s.kv, s.db, s.stream, s.issued, w, env)
            && At(t, w) == Some(h.(result := env.result, pc :=
                 if env.succeeds then WriteCompleted
                 else if h.delivery.attempt < cfg.maxDeliver then WriteRequeued else WriteFailed))
  {
    t := Next(cfg, s, Work(w, env));
    WorkIs(cfg, s, w, env);
    AloneGoesOn(cfg, start, s, w, env);
  }

  lemma Looks(cfg: Settings, start: World, s: World, w: WorkerId, env: Env) returns (t: World)
    requires Alone(cfg, start, s, w, env) && w in s.workers && s.workers[w].pc == CheckDone
    ensures var h := s.workers[w];
            && Moved(cfg, start, s, t, s.kv, s.db, s.stream, s.issued, w, env)
            && At(t, w) == Some(h.(pc := if DoneKey(h.job) in s.kv then AckDuplicate else TakeClaim))
  {
    t := Next(cfg, s, Work(w, env));
    WorkIs(cfg, s, w, env);
    AloneGoesOn(cfg, start, s, w, env);
  }

  lemma TakesClaim(cfg: Settings, start: World, s: World, w: WorkerId, env: Env) returns (t: World)
    requires Alone(cfg, start, s, w, env) && w in s.workers && s.workers[w].pc == TakeClaim
    ensures var h := s.workers[w]; var free := ClaimKey(h.job) !in s.kv;
            var kv := TimedStore.Take(s.kv, s.now, ClaimKey(h.job), Owner(w, h.delivery.attempt), cfg.leaseTtl);
            && Moved(cfg, start, s, t, kv, s.db, s.stream, s.issued, w, env)
            && At(t, w) == Some(h.(pc := if free then DrawToken else NakBusy,
                                   claimUntil := if free then s.now + cfg.leaseTtl else h.claimUntil))
  {
    t := Next(cfg, s, Work(w, env));
    WorkIs(cfg, s, w, env);
    AloneGoesOn(cfg, start, s, w, env);
  }

  lemma Draws(cfg: Settings, start: World, s: World, w: WorkerId, env: Env) returns (t: World)
    requires Alone(cfg, start, s, w, env) && w in s.workers && s.workers[w].pc == DrawToken
    ensures var h := s.workers[w];
            && Moved(cfg, start, s, t, s.kv, s.db, s.stream, s.issued[h.job := Issued(s, h.job) + [h.delivery]], w, env)
            && At(t, w) == Some(h.(pc := TakeLease, token := |Issued(s, h.job)| + 1))
  {
    t := Next(cfg, s, Work(w, env));
    WorkIs(cfg, s, w, env);
    AloneGoesOn(cfg, start, s, w, env);
  }

  lemma TakesLease(cfg: Settings, start: World, s: World, w: WorkerId, env: Env) returns (t: World)
    requires Alone(cfg, start, s, w, env) && w in s.workers && s.workers[w].pc == TakeLease
    ensures var h := s.workers[w];
            var kv := TimedStore.Take(s.kv, s.now, LeaseKey(h.job), Owner(w, h.token), cfg.leaseTtl);
            && Moved(cfg, start, s, t, kv, s.db, s.stream, s.issued, w, env)
            && At(t, w) == Some(h.(pc := if LeaseKey(h.job) in s.kv then DropClaimBusy else WriteStarted))
  {
    t := Next(cfg, s, Work(w, env));
    WorkIs(cfg, s, w, env);
    AloneGoesOn(cfg, start, s, w, env);
  }

  lemma Acquires(cfg: Settings, start: World, s: World, w: WorkerId, env: Env) returns (t: World)
    requires Alone(cfg, start, s, w, env) && w in s.workers && s.workers[w].pc == DrawToken
    ensures var h := s.workers[w]; var token := |DrawnFrom(s.issued, h.job)| + 1;
            var kv := TimedStore.Take(s.kv, s.now, LeaseKey(h.job), Owner(w, token), cfg.leaseTtl);
            var issued := s.issued[h.job := DrawnFrom(s.issued, h.job) + [h.delivery]];
            var next := if LeaseKey(h.job) in s.kv then DropClaimBusy else WriteStarted;
            && Moved(cfg, start, s, t, kv, s.db, s.stream, issued, w, env)
            && At(t, w) == Some(h.(token := token, pc := next))
  {
    t := Draws(cfg, start, s, w, env);
    t := TakesLease(cfg, start, t, w, env);
  }

  lemma MarksDone(cfg: Settings, start: World, s: World, w: WorkerId, env: Env) returns (t: World)
    requires Alone(cfg, start, s, w, env) && w in s.workers && s.workers[w].pc == MarkDone
    ensures var h := s.workers[w];
            var kv := TimedStore.Take(s.kv, s.now, DoneKey(h.job), Owner(w, h.delivery.attempt), cfg.doneTtl);
            && Moved(cfg, start, s, t, kv, s.db, s.stream, s.issued, w, env)
            && At(t, w) == Some(h.(pc := DropClaimDone))
  {
    t := Next(cfg, s, Work(w, env));
    WorkIs(cfg, s, w, env);
    AloneGoesOn(cfg, start, s, w, env);
  }

  lemma CountersFollow(before: map<Key, nat>, issued: map<JobId, seq<Delivery>>, job: JobId, d: Delivery)
    requires forall j :: Counter(before, TokenKey(j)) == |DrawnFrom(issued, j)|
    ensures var after := before[TokenKey(job) := Counter(before, TokenKey(job)) + 1];
            var more := issued[job := DrawnFrom(issued, job) + [d]];
            forall j :: Counter(after, TokenKey(j)) == |DrawnFrom(more, j)|
  {}

  class Worker {
    const id: WorkerId
    const cfg: Settings
    const kv: InMemoryKV<Key, Owner>
    const leases: LeaseManager
    const guard: ExecutionGuard
    const repo: Repository
    const js: JetStream

    /** Where the step system stands, and where it stood when the handling began. */
    ghost var world: World
    ghost var start: World

    /** A worker on stores that are in the state s. */
    constructor (
        id: WorkerId, cfg: Settings, kv: InMemoryKV<Key, Owner>, repo: Repository, js: JetStream, ghost s: World)
      requires repo.Valid() && repo.Db() == s.db && js.stream == s.stream
      requires kv.View().now == s.now && kv.View().live == s.kv
      requires forall j :: Counter(kv.View().counters, TokenKey(j)) == |DrawnFrom(s.issued, j)|
      ensures this.id == id && this.cfg == cfg && this.kv == kv && this.repo == repo && this.js == js
      ensures Mirrors() && world == s
    {
      this.id, this.cfg, this.kv, this.repo, this.js := id, cfg, kv, repo, js;
      leases := new LeaseManager(kv, cfg.leaseTtl);
      guard := new ExecutionGuard(kv, cfg.leaseTtl, cfg.doneTtl);
      world, start := s, s;
    }

    ghost predicate Wired() {
      && leases.kv == kv && leases.ttl == cfg.leaseTtl
      && guard.kv == kv && guard.claimTtl == cfg.leaseTtl && guard.doneTtl == cfg.doneTtl
    }

    ghost predicate KvHolds(now: real, live: map<Key, Entry<Owner>>, issued: map<JobId, seq<Delivery>>)
      reads kv, kv.clock
    {
      && kv.View().now == now && kv.View().live == live
      && (forall j :: Counter(kv.View().counters, TokenKey(j)) == |DrawnFrom(issued, j)|)
    }

    ghost predicate RepoHolds(db: Database)
      reads repo
    {
      repo.Valid() && repo.Db() == db
    }

    /** The stores are in the state the step system says. */
    ghost predicate Mirrors()
      reads this, kv, kv.clock, repo, js
    {
      Wired() && KvHolds(world.now, world.kv, world.issued) && RepoHolds(world.db) && js.stream == world.stream
    }

    ghost predicate On(h: Handler, env: Env)
      reads this, kv, kv.clock, repo, js
    {
      && Mirrors() && Alone(cfg, start, world, id, env)
      && id in world.workers && world.workers[id] == h
    }

    ghost predicate Departed(env: Env)
      reads this, kv, kv.clock, repo, js
    {
      Mirrors() && Alone(cfg, start, world, id, env) && id !in world.workers
    }

    method Write(ghost h: Handler, env: Env, job: JobId, w: Write) returns (v: Verdict)
      requires On(h, env) && h.job == job && EventAt(h.pc).Some? && w == WorkerWrite(h, EventAt(h.pc).value)
      modifies repo`jobs, repo`jobEvents, this`world
      ensures On(h.(pc := AfterWrite(h.pc, v)), env)
    {
      v := repo.ApplyEvent(job, w);
      world := Writes(cfg, start, world, id, env);
    }

    method Ack(ghost h: Handler, env: Env, msg: nat)
      requires On(h, env) && h.delivery.msg == msg && (h.pc == AckDuplicate || h.pc == AckDone)
      modifies js`stream, this`world
      ensures if h.pc == AckDone then On(h.(pc := Pc.ReleaseLease), env) else Departed(env)
    {
      js.Ack(msg);
      world := Acks(cfg, start, world, id, env);
    }

    method Nak(ghost h: Handler, env: Env, msg: nat, delay: real)
      requires On(h, env) && h.delivery.msg == msg && (h.pc == NakPoison || h.pc == NakBusy || h.pc == NakRetry)
      requires delay == Delay(h, env)
      modifies js`stream, this`world
      ensures if h.pc == NakRetry then On(h.(pc := Pc.ReleaseLease), env) else Departed(env)
    {
      js.Nak(msg, kv.clock.now + delay);
      world := Naks(cfg, start, world, id, env);
    }

    method Term(ghost h: Handler, env: Env, msg: nat)
      requires On(h, env) && h.delivery.msg == msg && (h.pc == TermFailed || h.pc == TermObsolete)
      modifies js`stream, this`world
      ensures On(h.(pc := Pc.ReleaseLease), env)
    {
      js.Term(msg);
      world := Terms(cfg, start, world, id, env);
    }

    method ReleaseClaim(ghost h: Handler, env: Env, job: JobId, delivery: Owner)
      requires On(h, env) && Releasing(h.pc) && h.job == job && delivery == Owner(id, h.delivery.attempt)
      modifies kv, this`world
      ensures On(h.(pc := AfterRelease(h.pc)), env)
    {
      guard.ReleaseClaim(job, delivery);
      world := DropsClaim(cfg, start, world, id, env);
    }

    method ReleaseLease(ghost h: Handler, env: Env, lease: Lease)
      requires On(h, env) && h.pc == Pc.ReleaseLease && lease == Lease(h.job, id, h.token)
      modifies kv, this`world
      ensures Departed(env)
    {
      var _ := leases.Release(lease);
      world := DropsLease(cfg, start, world, id, env);
    }

    /** `try_claim` is two effects: look for the done marker, then take the claim. */
    method TryClaim(ghost h: Handler, env: Env, job: JobId, delivery: Owner) returns (r: ClaimResult, ghost g: Handler)
      requires On(h, env) && h.pc == CheckDone && h.job == job && delivery == Owner(id, h.delivery.attempt)
      modifies kv, this`world
      ensures On(g, env) && g.job == job && g.delivery == h.delivery
      ensures g.pc == match r case AlreadyDone => AckDuplicate case InProgress => NakBusy case Claimed => DrawToken
    {
      r := guard.TryClaim(job, delivery);
      world := Looks(cfg, start, world, id, env);
      if r != AlreadyDone {
        world := TakesClaim(cfg, start, world, id, env);
      }
      g := world.workers[id];
    }

    /** `acquire` is two effects: draw a token, then take the lease. */
    method Acquire(ghost h: Handler, env: Env, job: JobId) returns (lease: Option<Lease>, ghost g: Handler)
      requires On(h, env) && h.pc == DrawToken && h.job == job
      modifies kv, this`world
      ensures On(g, env) && g.job == job && g.delivery == h.delivery
      ensures g.pc == if lease.Some? then WriteStarted else DropClaimBusy
      ensures lease.Some? ==> lease.value == Lease(job, id, g.token)
    {
      CountersFollow(kv.View().counters, world.issued, job, h.delivery);
      lease := leases.Acquire(job, id);
      world := Acquires(cfg, start, world, id, env);
      g := world.workers[id];
    }

    /** `mark_done` is two effects: store the done marker, then give the claim back. */
    method MarkDone(ghost h: Handler, env: Env, job: JobId, delivery: Owner)
      requires On(h, env) && h.pc == Pc.MarkDone && h.job == job && delivery == Owner(id, h.delivery.attempt)
      modifies kv, this`world
      ensures On(h.(pc := AckDone), env)
    {
      guard.MarkDone(job, delivery);
      world := MarksDone(cfg, start, world, id, env);
      world := DropsClaimDone(cfg, start, world, id, env);
    }

    /** The call of the job's work: `env` says whether it succeeds. */
    method Execute(ghost h: Handler, env: Env) returns (ghost g: Handler)
      requires On(h, env) && h.pc == Pc.Execute
      modifies this`world
      ensures On(g, env) && g == h.(result := env.result, pc := g.pc)
      ensures g.pc == if env.succeeds then WriteCompleted
                      else if h.delivery.attempt < cfg.maxDeliver then WriteRequeued else WriteFailed
    {
      world := Calls(cfg, start, world, id, env);
      g := world.workers[id];
    }

    /** `except SimulatedFailure` with deliveries left; an error in it leaves for `finally`. */
    method Requeue(ghost h: Handler, env: Env, msg: nat, lease: Lease, attempt: nat)
      requires On(h, env) && lease == Lease(h.job, id, h.token) && h.delivery == Delivery(msg, attempt)
      requires h.pc == WriteRequeued
      modifies kv, repo, js`stream, this`world
      ensures On(h.(pc := Pc.ReleaseLease), env)
    {
      var v := Write(h, env, lease.resource, Records.Write(Requeued, attempt, Some(lease.token), None));
      if v == Accepted {
        Retry(h.(pc := DropClaimRetry), env, msg, lease.resource, attempt, Backoff(attempt));
      }
    }

    method Retry(ghost h: Handler, env: Env, msg: nat, job: JobId, attempt: nat, delay: real)
      requires On(h, env) && h.job == job && h.delivery == Delivery(msg, attempt) && h.pc == DropClaimRetry
      requires delay == Backoff(attempt)
      modifies kv, js`stream, this`world
      ensures On(h.(pc := Pc.ReleaseLease), env)
    {
      ReleaseClaim(h, env, job, Owner(id, attempt));
      Nak(h.(pc := NakRetry), env, msg, delay);
    }

    /** `except SimulatedFailure` on the last delivery. */
    method GiveUp(ghost h: Handler, env: Env, msg: nat, lease: Lease, attempt: nat)
      requires On(h, env) && lease == Lease(h.job, id, h.token) && h.delivery == Delivery(msg, attempt)
      requires h.pc == WriteFailed
      modifies kv, repo, js`stream, this`world
      ensures On(h.(pc := Pc.ReleaseLease), env)
    {
      var v := Write(h, env, lease.resource, Records.Write(EventType.Failed, attempt, Some(lease.token), None));
      if v == Accepted {
        Drop(h.(pc := DropClaimFailed), env, msg, lease.resource, attempt);
      }
    }

    /** Give the claim back and stop redelivering. */
    method Drop(ghost h: Handler, env: Env, msg: nat, job: JobId, attempt: nat)
      requires On(h, env) && h.job == job && h.delivery == Delivery(msg, attempt)
      requires h.pc == DropClaimFailed || h.pc == DropClaimObsolete
      modifies kv, js`stream, this`world
      ensures On(h.(pc := Pc.ReleaseLease), env)
    {
      ReleaseClaim(h, env, job, Owner(id, attempt));
      Term(h.(pc := AfterRelease(h.pc)), env, msg);
    }

    /** COMPLETED, the done marker and the ack; `illegal` reports a refused transition. */
    method Complete(ghost h: Handler, env: Env, msg: nat, lease: Lease, attempt: nat) returns (illegal: bool)
      requires On(h, env) && lease == Lease(h.job, id, h.token) && h.delivery == Delivery(msg, attempt)
      requires h.pc == WriteCompleted && h.result == env.result
      modifies kv, repo, js`stream, this`world
      ensures On(h.(pc := if illegal then DropClaimObsolete else Pc.ReleaseLease), env)
    {
      var v := Write(h, env, lease.resource, Records.Write(Completed, attempt, Some(lease.token), Some(env.result)));
      if v == Accepted {
        MarkDone(h.(pc := Pc.MarkDone), env, lease.resource, Owner(id, attempt));
        Ack(h.(pc := AckDone), env, msg);
      }
      return v == Illegal;
    }

    /** Everything in the `try` block after an accepted STARTED, up to the `except IllegalTransition`. */
    method Perform(
        ghost h: Handler, env: Env, msg: nat, lease: Lease, attempt: nat)
        returns (illegal: bool, ghost g: Handler)
      requires On(h, env) && h.pc == Pc.Execute
      requires lease == Lease(h.job, id, h.token) && h.delivery == Delivery(msg, attempt)
      modifies kv, repo, js`stream, this`world
      ensures On(g, env) && g.job == h.job && g.token == h.token && g.delivery == h.delivery
      ensures g.pc == if illegal then DropClaimObsolete else Pc.ReleaseLease
    {
      g := Execute(h, env);
      illegal := false;
      if env.succeeds {
        illegal := Complete(g, env, msg, lease, attempt);
      } else if attempt < cfg.maxDeliver {
        Requeue(g, env, msg, lease, attempt);
      } else {
        GiveUp(g, env, msg, lease, attempt);
      }
      g := g.(pc := if illegal then DropClaimObsolete else Pc.ReleaseLease);
    }

    /** The `try` block and its `except` clauses. */
    method Run(ghost h: Handler, env: Env, msg: nat, lease: Lease, attempt: nat) returns (ghost g: Handler)
      requires On(h, env) && h.pc == WriteStarted
      requires lease == Lease(h.job, id, h.token) && h.delivery == Delivery(msg, attempt)
      modifies kv, repo, js`stream, this`world
      ensures On(g, env) && g.pc == Pc.ReleaseLease && g.job == h.job && g.token == h.token
    {
      var v := Write(h, env, lease.resource, Records.Write(Started, attempt, Some(lease.token), None));
      var illegal := v == Illegal;
      g := h.(pc := AfterWrite(WriteStarted, v));
      if v == Accepted {
        illegal, g := Perform(g, env, msg, lease, attempt);
      }
      if illegal {
        Drop(g, env, msg, lease.resource, attempt);
        g := g.(pc := Pc.ReleaseLease);
      }
    }

    /**
     `Worker.handle`, uninterrupted: whatever the stores hold, it makes exactly the moves of the
     handler's program counter, and leaves the stores as the step system has them when it is gone.
     */
    method Handle(env: Env, job: JobId, payload: Payload, msg: nat, attempt: nat)
      requires start == world && Mirrors() && id in world.workers
      requires world.workers[id]
            == Handler(job, Delivery(msg, attempt), if payload.poison then NakPoison else CheckDone, 0, 0.0, 0)
      modifies kv, repo, js`stream, this`world
      ensures Mirrors() && id !in world.workers && Alone(cfg, old(world), world, id, env)
    {
      AloneStarts(cfg, world, id, env);
      ghost var h := world.workers[id];
      if payload.poison {
        Nak(h, env, msg, 0.5);
        return;
      }
      var delivery := Owner(id, attempt);
      var claim;
      claim, h := TryClaim(h, env, job, delivery);
      if claim == AlreadyDone {
        Ack(h, env, msg);
        return;
      }
      if claim == InProgress {
        Nak(h, env, msg, Jitter(env));
        return;
      }
      HandleClaimed(h, env, job, msg, attempt);
    }

    /**
     `process` on a delivery that the broker makes now: it reads job, payload and attempt off the
     message and handles it. The stores end where the delivery and the handler's own moves lead, and
     the worker is ready for the next message.
     */
    method Process(env: Env, msg: nat)
      requires Mirrors() && id !in world.workers
      requires msg < |js.stream| && Due(js.stream[msg], kv.clock.now) && js.stream[msg].deliveries < cfg.maxDeliver
      modifies kv, repo, js`stream, this`world, this`start
      ensures Mirrors() && id !in world.workers
      ensures Alone(cfg, Next(cfg, old(world), Step.Deliver(id, msg)), world, id, env)
    {
      DeliverUnfolds(cfg, world, id, msg);
      var m := js.Deliver(msg, kv.clock.now + cfg.ackWait);
      world := Next(cfg, world, Step.Deliver(id, msg));
      start := world;
      Handle(env, m.job, m.payload, msg, m.deliveries);
    }

    /** The rest of `handle`, once the claim is taken. */
    method HandleClaimed(ghost h: Handler, env: Env, job: JobId, msg: nat, attempt: nat)
      requires On(h, env) && h.pc == DrawToken && h.job == job && h.delivery == Delivery(msg, attempt)
      modifies kv, repo, js`stream, this`world
      ensures Departed(env)
    {
      var lease;
      ghost var g;
      lease, g := Acquire(h, env, job);
      if lease.None? {
        ReleaseClaim(g, env, job, Owner(id, attempt));
        Nak(g.(pc := NakBusy), env, msg, Jitter(env));
        return;
      }
      g := Run(g, env, msg, lease.value, attempt);
      ReleaseLease(g, env, lease.value);
    }
  }

  /** A platform from scratch: empty stores, and a worker that mirrors the empty world. */
  method Boot(id: WorkerId, cfg: Settings) returns (w: Worker)
    ensures fresh(w) && w.id == id && w.cfg == cfg && w.Mirrors() && w.world == Genesis
  {
    var clock := new FakeClock(0.0);
    var kv := new InMemoryKV<Key, Owner>(clock);
    var repo := new Repository();
    var js := new JetStream();
    w := new Worker(id, cfg, kv, repo, js, Genesis);
  }
}
