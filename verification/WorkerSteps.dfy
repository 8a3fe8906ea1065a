/** Every effect of `Worker.handle` keeps the safety invariant. */
module WorkerSteps {
  import opened Core
  import opened Domain
  import opened Keys
  import opened Records
  import opened System
  import opened Safety
  import opened Preservation

  /** The event a program point commits, if it commits one. */
  function EventAt(pc: Pc): Option<EventType> {
    match pc
    case WriteStarted => Some(Started)
    case WriteCompleted => Some(Completed)
    case WriteRequeued => Some(Requeued)
    case WriteFailed => Some(EventType.Failed)
    case _ => None
  }

  lemma ActionShape(cfg: Settings, w: WorkerId, h: Handler, env: Env)
    ensures var a := ActionAt(cfg, w, h, env);
            && (a.Commit? <==> EventAt(h.pc).Some?)
            && (a.Commit? ==> a.write == WorkerWrite(h, EventAt(h.pc).value))
            && (a.Draw? <==> h.pc == DrawToken)
            && (a.Call? <==> h.pc == Execute)
            && (a.Ack? <==> h.pc == AckDuplicate || h.pc == AckDone)
            && (a.Take? && a.key.DoneKey? ==> h.pc == MarkDone)
            && (a.Take? || a.Look? || a.Drop? ==> a.key.job == h.job)
  {}

  // ----- the record -----

  lemma CommitKeepsJob(cfg: Settings, h: Handler, job: Job, issued: seq<Delivery>, executed: seq<Execution>)
    requires JobOk(cfg, job, issued) && TokenOk(h, issued) && ProgressOk(cfg, h, job, executed)
    requires EventAt(h.pc).Some?
    ensures JobOk(cfg, Written(job, WorkerWrite(h, EventAt(h.pc).value)), issued)
  {
    var write := WorkerWrite(h, EventAt(h.pc).value);
    assert EntryOk(cfg, EventOf(write), issued);
    WriteKeepsJob(cfg, job, issued, write);
  }

  lemma CommitKeepsTables(cfg: Settings, s: World, w: WorkerId)
    requires Coherent(s.db) && JobsOk(cfg, s) && w in s.workers && HandlerOk(cfg, s, w)
    requires EventAt(s.workers[w].pc).Some?
    ensures var h := s.workers[w];
            var db := Recorded(s.db, h.job, WorkerWrite(h, EventAt(h.pc).value));
            Coherent(db) && RecordsOk(cfg, db.jobs, s.issued)
  {
    var h := s.workers[w];
    RecordCoherent(s.db, h.job, WorkerWrite(h, EventAt(h.pc).value));
    CommitKeepsJob(cfg, h, s.db.jobs[h.job], DrawnFrom(s.issued, h.job), s.executed);
  }

  lemma DrawKeepsTables(cfg: Settings, s: World, id: JobId, d: Delivery)
    requires JobsOk(cfg, s)
    ensures RecordsOk(cfg, s.db.jobs, s.issued[id := DrawnFrom(s.issued, id) + [d]])
  {
    if id in s.db.jobs {
      DrawKeepsJob(cfg, s.db.jobs[id], DrawnFrom(s.issued, id), [d]);
    }
  }

  lemma EffectKeepsTables(cfg: Settings, s: World, w: WorkerId, env: Env)
    requires Coherent(s.db) && JobsOk(cfg, s) && w in s.workers && HandlerOk(cfg, s, w)
    ensures var t := Effect(s, s.workers[w], ActionAt(cfg, w, s.workers[w], env));
            Coherent(t.db) && JobsOk(cfg, t)
  {
    var h := s.workers[w];
    ActionShape(cfg, w, h, env);
    var a := ActionAt(cfg, w, h, env);
    if a.Commit? { CommitKeepsTables(cfg, s, w); }
    if a.Draw? { DrawKeepsTables(cfg, s, h.job, h.delivery); }
    EffectTables(cfg, s, h, a);
  }

  /** Only a commit touches the database, only a draw the counters. */
  lemma EffectTables(cfg: Settings, s: World, h: Handler, a: Action)
    requires Coherent(s.db) && JobsOk(cfg, s)
    requires a.Commit? ==> var db := Recorded(s.db, h.job, a.write); Coherent(db) && RecordsOk(cfg, db.jobs, s.issued)
    requires a.Draw? ==> RecordsOk(cfg, s.db.jobs, s.issued[h.job := DrawnFrom(s.issued, h.job) + [h.delivery]])
    ensures Coherent(Effect(s, h, a).db) && JobsOk(cfg, Effect(s, h, a))
  {
    match a
    case Look(_) =>
    case Take(_, _, _) =>
    case Drop(_, _) =>
    case Draw =>
    case Commit(_) =>
    case Call =>
    case Ack =>
    case Nak(_) =>
    case Term =>
  }

  // ----- the other handlers -----

  /** Handlers of different deliveries never hold the same token of a job. */
  lemma TokensApart(h: Handler, g: Handler, issued: seq<Delivery>)
    requires TokenOk(h, issued) && TokenOk(g, issued) && h.delivery != g.delivery && g.token > 0
    ensures g.token != h.token
  {}

  lemma OthersUnhurt(cfg: Settings, s: World, w: WorkerId, a: Action, v: WorkerId)
    requires w in s.workers && v in s.workers && HandlerOk(cfg, s, w) && HandlerOk(cfg, s, v)
    requires s.workers[v].delivery != s.workers[w].delivery
    requires a.Commit? ==> a.write.token == Some(s.workers[w].token)
    ensures Unhurt(s, Effect(s, s.workers[w], a), v)
  {
    var h, g := s.workers[w], s.workers[v];
    if g.job == h.job && g.token > 0 { TokensApart(h, g, Issued(s, h.job)); }
    match a
    case Look(_) =>
    case Take(_, _, _) =>
    case Drop(_, _) =>
    case Draw =>
    case Commit(write) =>
      if g.job == h.job && g.token > 0 { CarriesAppend(s.db.jobs[g.job].log, EventOf(write), g.token); }
    case Call =>
    case Ack =>
    case Nak(_) =>
    case Term =>
  }

  lemma CarriesAppend(log: Log, e: JobEvent, token: int)
    requires e.token != Some(token)
    ensures Carries(log + [e], token) ==> Carries(log, token)
  {
    if i :| 0 <= i < |log + [e]| && (log + [e])[i].token == Some(token) {
      assert log[i].token == Some(token);
    }
  }

  // ----- the acting handler -----

  lemma TokenMoves(cfg: Settings, s: World, w: WorkerId, env: Env)
    requires w in s.workers && TokenOk(s.workers[w], Issued(s, s.workers[w].job))
    ensures var h := s.workers[w];
            var a := ActionAt(cfg, w, h, env);
            var next := Onward(cfg, h, Ask(s, h, a, env));
            next.Some? ==> TokenOk(Learn(s, h, a, env).(pc := next.value), Issued(Effect(s, h, a), h.job))
  {
    var h := s.workers[w];
    var a := ActionAt(cfg, w, h, env);
    var g := Learn(s, h, a, env);
    var reply := Ask(s, h, a, env);
    ActionShape(cfg, w, h, env);
    if a.Draw? {
      assert Onward(cfg, h, reply) == Some(TakeLease);
    } else {
      LearnsNoToken(s, h, a, env);
      TokenStays(cfg, h, Issued(s, h.job), reply);
    }
  }

  lemma LearnsNoToken(s: World, h: Handler, a: Action, env: Env)
    requires !a.Draw?
    ensures Learn(s, h, a, env).token == h.token && Learn(s, h, a, env).delivery == h.delivery
    ensures Effect(s, h, a).issued == s.issued
  {}

  lemma TokenStays(cfg: Settings, h: Handler, issued: seq<Delivery>, reply: Reply)
    requires TokenOk(h, issued) && h.pc != DrawToken
    ensures var next := Onward(cfg, h, reply); next.Some? ==> TokenOk(h.(pc := next.value), issued)
  {}

  /** A fresh token is in no log and under no execution. */
  lemma FreshToken(cfg: Settings, s: World, job: JobId)
    requires job in s.db.jobs && JobOk(cfg, s.db.jobs[job], Issued(s, job)) && ExecutedOk(s)
    ensures !Carries(s.db.jobs[job].log, |Issued(s, job)| + 1)
    ensures Execution(job, |Issued(s, job)| + 1) !in s.executed
  {
    forall i | 0 <= i < |s.db.jobs[job].log| ensures s.db.jobs[job].log[i].token != Some(|Issued(s, job)| + 1) {
      assert EntryOk(cfg, s.db.jobs[job].log[i], Issued(s, job));
    }
    forall i | 0 <= i < |s.executed| ensures s.executed[i] != Execution(job, |Issued(s, job)| + 1) {
      assert ExecutionOk(s, s.executed[i]);
    }
  }

  lemma CommitMoves(cfg: Settings, h: Handler, job: Job, executed: seq<Execution>, next: Pc)
    requires ProgressOk(cfg, h, job, executed) && EventAt(h.pc).Some?
    requires var write := WorkerWrite(h, EventAt(h.pc).value);
             Onward(cfg, h, Ruled(Judge(job.row, write))) == Some(next)
    ensures ProgressOk(cfg, h.(pc := next), Written(job, WorkerWrite(h, EventAt(h.pc).value)), executed)
  {
    var write := WorkerWrite(h, EventAt(h.pc).value);
    if h.pc == WriteStarted && Judge(job.row, write) == Accepted {
      var log := Written(job, write).log;
      assert log[|job.log|].event == Started && log[|job.log|].token == Some(h.token);
      assert StartedBy(log, h.token);
    }
  }

  /** An effect outside the record moves the handler to a point about which the record says no more. */
  lemma QuietMoves(cfg: Settings, h: Handler, job: Job, executed: seq<Execution>, reply: Reply, until: real)
    requires ProgressOk(cfg, h, job, executed) && EventAt(h.pc).None? && h.pc != DrawToken && h.pc != Execute
    requires h.pc == CheckDone && reply == Yes ==> job.row.state == Succeeded
    ensures var next := Onward(cfg, h, reply);
            next.Some? ==> ProgressOk(cfg, h.(pc := next.value, claimUntil := until), job, executed)
  {
    var next := Onward(cfg, h, reply);
    if next.Some? { QuietPoints(cfg, h, reply); }
  }

  /** Where an effect outside the record can lead. */
  lemma QuietPoints(cfg: Settings, h: Handler, reply: Reply)
    requires EventAt(h.pc).None? && h.pc != DrawToken && h.pc != Execute && Onward(cfg, h, reply).Some?
    ensures var next := Onward(cfg, h, reply).value;
            && !InExecution(next) && next != TakeLease && next != DropClaimFailed
            && (next == WriteStarted ==> h.pc == TakeLease)
            && (AfterSuccess(next) ==> AfterSuccess(h.pc) || (h.pc == CheckDone && reply == Yes))
            && (next == TermFailed ==> h.pc == DropClaimFailed)
  {}

  lemma CallMoves(cfg: Settings, h: Handler, job: Job, executed: seq<Execution>, reply: Reply, result: nat)
    requires ProgressOk(cfg, h, job, executed) && h.pc == Execute
    ensures var next := Onward(cfg, h, reply);
            && next.Some?
            && ProgressOk(cfg, h.(pc := next.value, result := result), job, executed + [Execution(h.job, h.token)])
  {}

  lemma ProgressMoves(cfg: Settings, s: World, w: WorkerId, env: Env)
    requires w in s.workers && HandlerOk(cfg, s, w) && ExecutedOk(s)
    requires JobOk(cfg, s.db.jobs[s.workers[w].job], Issued(s, s.workers[w].job))
    requires DoneKey(s.workers[w].job) in s.kv ==> InState(s, s.workers[w].job, Succeeded)
    ensures var h := s.workers[w];
            var a := ActionAt(cfg, w, h, env);
            var next := Onward(cfg, h, Ask(s, h, a, env));
            var t := Effect(s, h, a);
            next.Some? ==>
              h.job in t.db.jobs
              && ProgressOk(cfg, Learn(s, h, a, env).(pc := next.value), t.db.jobs[h.job], t.executed)
  {
    var h := s.workers[w];
    var a := ActionAt(cfg, w, h, env);
    var reply := Ask(s, h, a, env);
    ActionShape(cfg, w, h, env);
    if a.Commit? {
      CommitMoves(cfg, h, s.db.jobs[h.job], s.executed, Onward(cfg, h, reply).value);
    } else if a.Draw? {
      FreshToken(cfg, s, h.job);
    } else if a.Call? {
      CallMoves(cfg, h, s.db.jobs[h.job], s.executed, reply, env.result);
    } else {
      QuietEffect(s, h, a, env);
      QuietMoves(cfg, h, s.db.jobs[h.job], s.executed, reply, Learn(s, h, a, env).claimUntil);
    }
  }

  lemma QuietEffect(s: World, h: Handler, a: Action, env: Env)
    requires !a.Commit? && !a.Draw? && !a.Call?
    ensures Effect(s, h, a).db == s.db && Effect(s, h, a).executed == s.executed
    ensures Learn(s, h, a, env) == h.(claimUntil := Learn(s, h, a, env).claimUntil)
  {}

  lemma StandsWell(cfg: Settings, s: World, w: WorkerId, e: World, g: Handler, t: World)
    requires w in s.workers && HandlerOk(cfg, s, w) && StreamGrows(s.stream, e.stream)
    requires g.job == s.workers[w].job && g.delivery == s.workers[w].delivery && g.job in e.db.jobs
    requires TokenOk(g, Issued(e, g.job)) && ProgressOk(cfg, g, e.db.jobs[g.job], e.executed)
    requires t == e.(workers := e.workers[w := g])
    ensures HandlerOk(cfg, t, w)
  {
    assert SameLetter(s.stream[g.delivery.msg], e.stream[g.delivery.msg]);
  }

  lemma SelfKeeps(cfg: Settings, s: World, w: WorkerId, env: Env)
    requires w in s.workers && HandlerOk(cfg, s, w) && ExecutedOk(s)
    requires JobOk(cfg, s.db.jobs[s.workers[w].job], Issued(s, s.workers[w].job))
    requires DoneKey(s.workers[w].job) in s.kv ==> InState(s, s.workers[w].job, Succeeded)
    ensures var t := WorkerStep(cfg, s, w, env); w in t.workers ==> HandlerOk(cfg, t, w)
  {
    var h := s.workers[w];
    var a := ActionAt(cfg, w, h, env);
    var next := Onward(cfg, h, Ask(s, h, a, env));
    TokenMoves(cfg, s, w, env);
    ProgressMoves(cfg, s, w, env);
    EffectGrows(s, h, a);
    LearnKeeps(s, h, a, env);
    if next.Some? {
      StandsWell(cfg, s, w, Effect(s, h, a), Learn(s, h, a, env).(pc := next.value), WorkerStep(cfg, s, w, env));
    }
  }

  lemma LearnKeeps(s: World, h: Handler, a: Action, env: Env)
    ensures Learn(s, h, a, env).job == h.job && Learn(s, h, a, env).delivery == h.delivery
  {}

  // ----- everything else the effect touches -----

  lemma EffectIssued(cfg: Settings, s: World, w: WorkerId, t: World, j: JobId)
    requires w in s.workers && HandlerOk(cfg, s, w) && s.workers[w].pc == DrawToken
    requires IssuedOk(s, j) && t.stream == s.stream
    requires t.issued == s.issued[s.workers[w].job := Issued(s, s.workers[w].job) + [s.workers[w].delivery]]
    ensures IssuedOk(t, j)
  {
    forall i | 0 <= i < |Issued(t, j)| ensures DeliveryOk(t, j, Issued(t, j)[i]) {
      if i < |Issued(s, j)| { assert DeliveryOk(s, j, Issued(s, j)[i]); }
    }
    forall i, k | 0 <= i < k < |Issued(t, j)| ensures Issued(t, j)[i] != Issued(t, j)[k] {
      assert Issued(t, j)[i] == Issued(s, j)[i];
    }
  }

  lemma EffectExecuted(cfg: Settings, s: World, w: WorkerId, t: World)
    requires w in s.workers && HandlerOk(cfg, s, w) && s.workers[w].pc == Execute && ExecutedOk(s)
    requires t.db == s.db && t.issued == s.issued
    requires t.executed == s.executed + [Execution(s.workers[w].job, s.workers[w].token)]
    ensures ExecutedOk(t)
  {
    forall i | 0 <= i < |t.executed| ensures ExecutionOk(t, t.executed[i]) {
      if i < |s.executed| { assert ExecutionOk(s, s.executed[i]); }
    }
  }

  lemma EffectMessages(cfg: Settings, s: World, w: WorkerId, t: World, a: Action)
    requires w in s.workers && HandlerOk(cfg, s, w) && MessagesOk(cfg, s)
    requires a.Ack? ==> AfterSuccess(s.workers[w].pc)
    requires t.stream == Effect(s, s.workers[w], a).stream && (a.Ack? ==> t.db == s.db && t.dlq == s.dlq)
    ensures MessagesSettled(cfg, s, t)
  {
    forall i | 0 <= i < |t.stream| && t.stream[i].fate == Acked && a.Ack? ensures MessageOk(cfg, t, i) {
      assert MessageOk(cfg, s, i);
    }
    forall i | 0 <= i < |t.stream| ensures t.stream[i].deliveries <= cfg.maxDeliver {
      assert MessageOk(cfg, s, i);
    }
  }

  lemma EffectEntries(cfg: Settings, s: World, w: WorkerId, t: World, a: Action)
    requires w in s.workers && HandlerOk(cfg, s, w)
    requires forall k :: k in s.kv ==> EntryAlive(s, k)
    requires a.Take? && a.key.DoneKey? ==> s.workers[w].pc == MarkDone && a.key.job == s.workers[w].job && t.db == s.db
    requires t.kv == Effect(s, s.workers[w], a).kv && t.now == s.now
    ensures EntriesSettled(s, t)
  {
    forall k | k in t.kv && !(k in s.kv && t.kv[k] == s.kv[k]) ensures EntryAlive(t, k) {}
    forall k | k in s.kv ensures s.now < s.kv[k].expiresAt { assert EntryAlive(s, k); }
  }

  lemma OthersStayUnhurt(cfg: Settings, s: World, w: WorkerId, a: Action, t: World)
    requires HandlersOk(cfg, s) && Apart(s) && w in s.workers
    requires var e := Effect(s, s.workers[w], a); t.db == e.db && t.issued == e.issued && t.executed == e.executed
    requires a.Commit? ==> a.write.token == Some(s.workers[w].token)
    ensures forall v :: v in s.workers && v != w ==> Unhurt(s, t, v)
  {
    forall v | v in s.workers && v != w ensures Unhurt(s, t, v) {
      assert HandlerOk(cfg, s, v) && HandlerOk(cfg, s, w);
      OthersUnhurt(cfg, s, w, a, v);
    }
  }

  lemma StillApart(s: World, w: WorkerId, t: World)
    requires Apart(s) && w in s.workers && (w in t.workers ==> t.workers[w].delivery == s.workers[w].delivery)
    requires forall v :: v in t.workers && v != w ==> v in s.workers && t.workers[v] == s.workers[v]
    ensures Apart(t)
  {
    forall u, v | u in t.workers && v in t.workers && u != v ensures t.workers[u].delivery != t.workers[v].delivery {
      assert s.workers[u].delivery != s.workers[v].delivery;
    }
  }

  lemma EffectHandlers(cfg: Settings, s: World, w: WorkerId, a: Action, g: Handler, next: Option<Pc>, t: World)
    requires HandlersOk(cfg, s) && Apart(s) && w in s.workers
    requires t == Proceed(Effect(s, s.workers[w], a), w, g, next) && g.delivery == s.workers[w].delivery
    requires w in t.workers ==> HandlerOk(cfg, t, w)
    requires a.Commit? ==> a.write.token == Some(s.workers[w].token)
    ensures HandlersSettled(cfg, s, t) && Apart(t)
  {
    ProceedFrame(s, w, a, g, next, t);
    OthersStayUnhurt(cfg, s, w, a, t);
    StillApart(s, w, t);
  }

  lemma ProceedFrame(s: World, w: WorkerId, a: Action, g: Handler, next: Option<Pc>, t: World)
    requires w in s.workers && t == Proceed(Effect(s, s.workers[w], a), w, g, next)
    ensures var e := Effect(s, s.workers[w], a); t.db == e.db && t.issued == e.issued && t.executed == e.executed
    ensures forall v :: v in t.workers && v != w ==> v in s.workers && t.workers[v] == s.workers[v]
    ensures w in t.workers ==> t.workers[w].delivery == g.delivery
  {}

  lemma EffectCounters(cfg: Settings, s: World, w: WorkerId, a: Action, t: World)
    requires w in s.workers && HandlerOk(cfg, s, w) && ExecutedOk(s) && forall j :: IssuedOk(s, j)
    requires a.Draw? ==> s.workers[w].pc == DrawToken
    requires a.Call? ==> s.workers[w].pc == Execute
    requires var e := Effect(s, s.workers[w], a);
             t.db == e.db && t.issued == e.issued && t.stream == e.stream && t.executed == e.executed
    ensures CountersSettled(s, t)
  {
    if a.Draw? {
      forall j ensures IssuedOk(t, j) { EffectIssued(cfg, s, w, t, j); }
    }
    if a.Call? { EffectExecuted(cfg, s, w, t); }
  }

  lemma EffectFrame(s: World, w: WorkerId, a: Action, g: Handler, next: Option<Pc>, t: World)
    requires w in s.workers && t == Proceed(Effect(s, s.workers[w], a), w, g, next)
    ensures t.listeners == s.listeners && t.relays == s.relays && t.db.outbox == s.db.outbox
    ensures t.now == s.now && t.dlq == s.dlq
    ensures a.Ack? || a.Take? ==> t.db == s.db
    ensures var e := Effect(s, s.workers[w], a);
            t.kv == e.kv && t.db == e.db && t.issued == e.issued && t.stream == e.stream && t.executed == e.executed
  {}

  /** The effect an action has on the world, for a handler that may perform it. */
  lemma ActionSettles(cfg: Settings, s: World, w: WorkerId, a: Action, g: Handler, next: Option<Pc>, t: World)
    requires MessagesOk(cfg, s) && HandlersOk(cfg, s) && Apart(s) && ExecutedOk(s) && w in s.workers
    requires HandlerOk(cfg, s, w)
    requires (forall k :: k in s.kv ==> EntryAlive(s, k)) && (forall j :: IssuedOk(s, j))
    requires t == Proceed(Effect(s, s.workers[w], a), w, g, next) && g.delivery == s.workers[w].delivery
    requires Grows(s, t) && Coherent(t.db) && JobsOk(cfg, t)
    requires w in t.workers ==> HandlerOk(cfg, t, w)
    requires a.Commit? ==> a.write.token == Some(s.workers[w].token)
    requires a.Draw? ==> s.workers[w].pc == DrawToken
    requires a.Call? ==> s.workers[w].pc == Execute
    requires a.Ack? ==> AfterSuccess(s.workers[w].pc)
    requires a.Take? && a.key.DoneKey? ==> s.workers[w].pc == MarkDone && a.key.job == s.workers[w].job
    ensures StepSettled(cfg, s, t)
  {
    EffectFrame(s, w, a, g, next, t);
    EffectHandlers(cfg, s, w, a, g, next, t);
    EffectMessages(cfg, s, w, t, a);
    EffectEntries(cfg, s, w, t, a);
    EffectCounters(cfg, s, w, a, t);
  }

  lemma TablesStay(s: World, w: WorkerId, a: Action, g: Handler, next: Option<Pc>)
    requires w in s.workers
    ensures var e := Effect(s, s.workers[w], a); var t := Proceed(e, w, g, next); t.db == e.db && t.issued == e.issued
  {}

  lemma WorkerSettles(cfg: Settings, s: World, w: WorkerId, env: Env)
    requires Coherent(s.db) && JobsOk(cfg, s) && MessagesOk(cfg, s) && HandlersOk(cfg, s) && Apart(s) && ExecutedOk(s)
    requires (forall k :: k in s.kv ==> EntryAlive(s, k)) && (forall j :: IssuedOk(s, j))
    requires w in s.workers && HandlerOk(cfg, s, w)
    ensures StepSettled(cfg, s, WorkerStep(cfg, s, w, env))
  {
    var h := s.workers[w];
    var a := ActionAt(cfg, w, h, env);
    ActionShape(cfg, w, h, env);
    WorkerGrows(cfg, s, w, env);
    EffectKeepsTables(cfg, s, w, env);
    assert JobOk(cfg, s.db.jobs[h.job], DrawnFrom(s.issued, h.job));
    if DoneKey(h.job) in s.kv { assert EntryAlive(s, DoneKey(h.job)); }
    SelfKeeps(cfg, s, w, env);
    LearnKeeps(s, h, a, env);
    TablesStay(s, w, a, Learn(s, h, a, env), Onward(cfg, h, Ask(s, h, a, env)));
    ActionSettles(cfg, s, w, a, Learn(s, h, a, env), Onward(cfg, h, Ask(s, h, a, env)), WorkerStep(cfg, s, w, env));
  }

  /** One effect of one handler keeps the invariant, whatever everybody else is doing. */
  lemma WorkerKeeps(cfg: Settings, s: World, w: WorkerId, env: Env)
    requires Inv(cfg, s) && w in s.workers
    ensures Inv(cfg, WorkerStep(cfg, s, w, env))
  {
    assert HandlerOk(cfg, s, w);
    WorkerSettles(cfg, s, w, env);
    Assemble(cfg, s, WorkerStep(cfg, s, w, env));
  }
}
