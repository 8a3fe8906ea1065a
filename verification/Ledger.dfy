/**
 Who writes what into a job's record. Every entry of every log, and every result, is traced to the step
 that wrote it, and its values to where the source takes them from.
 */
module Ledger {
  import opened Core
  import opened Domain
  import opened Keys
  import opened Records
  import opened System
  import opened Safety
  import opened Frames
  import opened WorkerSteps
  import opened OtherSteps
  import opened Guarantees
  import opened NoLoss
  import opened Loss

  // ----- one step, one write -----

  /** The step is a write of the worker's handler, of a quarantine's audit or of a replay, on job j. */
  ghost predicate WritesTo(s: World, step: Step, j: JobId, w: Write) {
    match step
    case ReplayJob(id) => id == j && w == ReplayWrite
    case Work(v, _) =>
      && v in s.workers && s.workers[v].job == j
      && EventAt(s.workers[v].pc).Some? && w == WorkerWrite(s.workers[v], EventAt(s.workers[v].pc).value)
    case Listening(l, _) =>
      && l in s.listeners && s.listeners[l].pc == Mark && Concerns(s, s.listeners[l].msg, j)
      && w == DeadLetterWrite(s.stream[s.listeners[l].msg])
    case _ => false
  }

  ghost predicate JobMoves(s: World, t: World, step: Step, j: JobId)
    requires j in s.db.jobs
  {
    && j in t.db.jobs
    && (|| t.db.jobs[j] == s.db.jobs[j]
        || exists w :: WritesTo(s, step, j, w) && Judge(s.db.jobs[j].row, w) == Accepted
                       && t.db.jobs[j] == Written(s.db.jobs[j], w))
  }

  lemma EffectWrites(s: World, h: Handler, a: Action)
    ensures Effect(s, h, a).db == if a.Commit? then Recorded(s.db, h.job, a.write) else s.db
  {}

  lemma WorkerWrites(cfg: Settings, s: World, v: WorkerId, env: Env, j: JobId)
    requires j in s.db.jobs
    ensures JobMoves(s, Next(cfg, s, Work(v, env)), Work(v, env), j)
  {
    WorkUnfolds(cfg, s, v, env);
    if v in s.workers {
      var h := s.workers[v];
      var a := ActionAt(cfg, v, h, env);
      ActionShape(cfg, v, h, env);
      EffectWrites(s, h, a);
      if a.Commit? && h.job == j { assert WritesTo(s, Work(v, env), j, a.write); }
    }
  }

  lemma QuarantineWrites(cfg: Settings, s: World, l: string, inWindow: bool, j: JobId)
    requires j in s.db.jobs
    ensures JobMoves(s, Next(cfg, s, Listening(l, inWindow)), Listening(l, inWindow), j)
  {
    ListenUnfolds(cfg, s, l, inWindow);
    if l in s.listeners && s.listeners[l].msg < |s.stream| {
      var m := s.stream[s.listeners[l].msg];
      ListenerWrites(s, l, inWindow);
      if s.listeners[l].pc != Mark { OnlyMarkWrites(s, l, inWindow); }
      if m.job == j && s.listeners[l].pc == Mark {
        assert WritesTo(s, Listening(l, inWindow), j, DeadLetterWrite(m));
      }
    }
  }

  lemma OnlyMarkWrites(s: World, l: string, inWindow: bool)
    requires l in s.listeners && s.listeners[l].pc != Mark
    ensures ListenerStep(s, l, inWindow).db == s.db
  {
    if s.listeners[l].msg < |s.stream| {
      match s.listeners[l].pc
      case Load =>
      case Copy =>
      case Remove =>
      case Settle =>
    }
  }

  /** A step leaves an existing job as it is, or enters one accepted write. */
  lemma JobMove(cfg: Settings, s: World, step: Step, j: JobId)
    requires j in s.db.jobs
    ensures JobMoves(s, Next(cfg, s, step), step, j)
  {
    match step
    case SubmitJob(_, _, _) =>
    case ReplayJob(id) => if id == j { assert WritesTo(s, step, j, ReplayWrite); }
    case Work(v, env) => WorkerWrites(cfg, s, v, env, j);
    case Listening(l, inWindow) => QuarantineWrites(cfg, s, l, inWindow, j);
    case _ => TablesFrame(cfg, s, step);
  }

  /** A new job is made by a submission, and holds exactly what was submitted. */
  lemma NewJobIs(cfg: Settings, s: World, step: Step, j: JobId)
    requires j !in s.db.jobs && j in Next(cfg, s, step).db.jobs
    ensures step.SubmitJob? && step.id == j && step.key !in s.db.byKey
    ensures var t := Next(cfg, s, step);
            && t.db.jobs[j].row == JobRow(step.key, step.payload, Queued, 0, 0, None)
            && t.db.jobs[j].log == [JobEvent(EventType.Submitted, 0, None), JobEvent(Enqueued, 0, None)]
  {
    match step
    case SubmitJob(id, key, payload) => InsertedStores(s.db, id, key, payload);
    case ReplayJob(_) =>
    case Work(v, env) =>
      WorkUnfolds(cfg, s, v, env);
      if v in s.workers { EffectWrites(s, s.workers[v], ActionAt(cfg, v, s.workers[v], env)); }
    case Listening(l, inWindow) =>
      ListenUnfolds(cfg, s, l, inWindow);
      if l in s.listeners { ListenerWrites(s, l, inWindow); }
    case _ => TablesFrame(cfg, s, step);
  }

  // ----- every entry of every log -----

  /** The values each kind of event is written with. */
  ghost predicate EntryIs(cfg: Settings, e: JobEvent) {
    match e.event
    case Submitted => e.attempt == 0 && e.token == None
    case Enqueued => e.attempt == 0 && e.token == None
    case Started => 1 <= e.attempt <= cfg.maxDeliver && e.token.Some?
    case Completed => 1 <= e.attempt <= cfg.maxDeliver && e.token.Some?
    case Requeued => 1 <= e.attempt < cfg.maxDeliver && e.token.Some?
    case Failed => e.attempt == cfg.maxDeliver && e.token.Some?
    case DeadLettered => e.attempt == cfg.maxDeliver && e.token == None
    case Replayed => e.attempt == 0 && e.token == None
  }

  ghost predicate LogIs(cfg: Settings, log: Log) {
    && |log| >= 2
    && log[0] == JobEvent(EventType.Submitted, 0, None) && log[1] == JobEvent(Enqueued, 0, None)
    && forall i :: 0 <= i < |log| ==> EntryIs(cfg, log[i])
  }

  ghost predicate LogsAre(cfg: Settings, s: World) {
    forall j :: j in s.db.jobs ==> LogIs(cfg, s.db.jobs[j].log)
  }

  /** What stands behind the writes of workers and listeners. */
  ghost predicate Sources(cfg: Settings, s: World) {
    MessagesOk(cfg, s) && HandlersOk(cfg, s) && Advised(cfg, s) && Summoned(s)
  }

  lemma WriteIs(cfg: Settings, s: World, step: Step, j: JobId, w: Write)
    requires Sources(cfg, s) && WritesTo(s, step, j, w)
    ensures EntryIs(cfg, JobEvent(w.event, w.attempt, w.token))
  {
    match step
    case ReplayJob(_) =>
    case Work(v, _) =>
      assert HandlerOk(cfg, s, v);
      assert MessageOk(cfg, s, s.workers[v].delivery.msg);
    case Listening(l, _) =>
      assert MessageOk(cfg, s, s.listeners[l].msg);
  }

  lemma LogStaysRight(cfg: Settings, s: World, step: Step, j: JobId)
    requires Sources(cfg, s) && j in s.db.jobs && LogIs(cfg, s.db.jobs[j].log)
    ensures j in Next(cfg, s, step).db.jobs && LogIs(cfg, Next(cfg, s, step).db.jobs[j].log)
  {
    JobMove(cfg, s, step, j);
    LogEntered(cfg, s, Next(cfg, s, step), step, j);
  }

  lemma LogEntered(cfg: Settings, s: World, t: World, step: Step, j: JobId)
    requires Sources(cfg, s) && j in s.db.jobs && LogIs(cfg, s.db.jobs[j].log) && JobMoves(s, t, step, j)
    ensures LogIs(cfg, t.db.jobs[j].log)
  {
    if t.db.jobs[j] != s.db.jobs[j] {
      var w :| WritesTo(s, step, j, w) && Judge(s.db.jobs[j].row, w) == Accepted
               && t.db.jobs[j] == Written(s.db.jobs[j], w);
      WriteIs(cfg, s, step, j, w);
    }
  }

  lemma LogsNext(cfg: Settings, s: World, step: Step)
    requires Sources(cfg, s) && LogsAre(cfg, s)
    ensures LogsAre(cfg, Next(cfg, s, step))
  {
    var t := Next(cfg, s, step);
    forall j | j in t.db.jobs ensures LogIs(cfg, t.db.jobs[j].log) {
      if j in s.db.jobs { LogStaysRight(cfg, s, step, j); } else { NewJobIs(cfg, s, step, j); }
    }
  }

  lemma SourcesStand(cfg: Settings, ws: seq<World>, steps: seq<Step>, n: nat)
    requires IsRun(cfg, ws, steps) && n < |ws|
    ensures Sources(cfg, ws[n])
  {
    GenesisIsSafe(cfg);
    PathKeeps(cfg, ws, steps, n);
    PathAdvised(cfg, ws, steps, n);
  }

  lemma {:induction false} RunLogsAre(cfg: Settings, ws: seq<World>, steps: seq<Step>, n: nat)
    requires IsRun(cfg, ws, steps) && n < |ws|
    ensures LogsAre(cfg, ws[n])
  {
    if n > 0 {
      RunLogsAre(cfg, ws, steps, n - 1);
      SourcesStand(cfg, ws, steps, n - 1);
      assert Linked(cfg, ws, steps, n - 1);
      LogsNext(cfg, ws[n - 1], steps[n - 1]);
    }
  }

  /**
   In every reachable state each log opens with SUBMITTED and ENQUEUED, and each event carries the values
   of its kind: a DEAD_LETTERED the exhausted delivery count and no token, a REPLAYED attempt 0 and no
   token, a FAILED the last attempt. The row's attempts are the largest attempt logged.
   */
  lemma EveryEntryIs(cfg: Settings, s: World, j: JobId, i: nat)
    requires Reachable(cfg, s) && j in s.db.jobs && i < |LogIn(s, j)|
    ensures LogIs(cfg, LogIn(s, j)) && EntryIs(cfg, LogIn(s, j)[i])
    ensures LogIn(s, j)[i].attempt <= s.db.jobs[j].row.attempts
    ensures exists k :: 0 <= k < |LogIn(s, j)| && LogIn(s, j)[k].attempt == s.db.jobs[j].row.attempts
    ensures 0 <= s.db.jobs[j].row.attempts <= cfg.maxDeliver
  {
    var ws, steps :| IsRun(cfg, ws, steps) && Last(ws) == s;
    RunLogsAre(cfg, ws, steps, |ws| - 1);
    JobIsOk(cfg, s, j);
    var log := LogIn(s, j);
    MaxAttemptBounds(log, i);
    MaxAttemptBounds(log, 0);
    MaxAttemptAttained(log);
    if s.db.jobs[j].row.attempts == 0 { assert log[0].attempt == 0; }
  }

  // ----- the result -----

  /** Step m is the call of `execute` under lease `token` of job j, and it returned `result`. */
  ghost predicate Returned(ws: seq<World>, steps: seq<Step>, m: nat, j: JobId, token: nat, result: nat) {
    && m < |steps| && m < |ws| && steps[m].Work? && steps[m].worker in ws[m].workers
    && var h := ws[m].workers[steps[m].worker];
       && h.pc == Execute && h.job == j && h.token == token
       && steps[m].env.succeeds && steps[m].env.result == result
  }

  ghost predicate ReturnedBefore(ws: seq<World>, steps: seq<Step>, n: nat, j: JobId, token: nat, result: nat) {
    exists m :: 0 <= m < n && Returned(ws, steps, m, j, token, result)
  }

  /** The row of a SUCCEEDED job holds what the call under the lease of its last event returned. */
  ghost predicate ResultTraced(ws: seq<World>, steps: seq<Step>, n: nat, j: JobId)
    requires n < |ws| && j in ws[n].db.jobs
  {
    var job := ws[n].db.jobs[j];
    job.row.state == Succeeded ==>
      && job.log != [] && job.row.result.Some?
      && var e := job.log[|job.log| - 1];
         && e.event == Completed && e.token.Some? && e.token.value >= 0
         && ReturnedBefore(ws, steps, n, j, e.token.value, job.row.result.value)
  }

  /** A handler about to complete carries what its own call returned. */
  ghost predicate HandlerTraced(ws: seq<World>, steps: seq<Step>, n: nat, w: WorkerId)
    requires n < |ws| && w in ws[n].workers
  {
    var h := ws[n].workers[w];
    h.pc == WriteCompleted ==> ReturnedBefore(ws, steps, n, h.job, h.token, h.result)
  }

  ghost predicate Traced(ws: seq<World>, steps: seq<Step>, n: nat)
    requires n < |ws|
  {
    && (forall j :: j in ws[n].db.jobs ==> ResultTraced(ws, steps, n, j))
    && (forall w :: w in ws[n].workers ==> HandlerTraced(ws, steps, n, w))
  }

  lemma StillReturned(ws: seq<World>, steps: seq<Step>, n: nat, j: JobId, token: nat, result: nat)
    requires ReturnedBefore(ws, steps, n, j, token, result)
    ensures ReturnedBefore(ws, steps, n + 1, j, token, result)
  {}

  /** The way to WRITE_COMPLETED leads through a successful call. */
  lemma CompletesAfterCall(cfg: Settings, s: World, w: WorkerId, env: Env)
    requires w in s.workers
    ensures var t := WorkerStep(cfg, s, w, env);
            w in t.workers && t.workers[w].pc == WriteCompleted ==>
              && s.workers[w].pc == Execute && env.succeeds
              && t.workers[w] == s.workers[w].(pc := WriteCompleted, result := env.result)
  {
    var h := s.workers[w];
    var a := ActionAt(cfg, w, h, env);
    CompletedComesFrom(cfg, h, Ask(s, h, a, env));
  }

  lemma CompletedComesFrom(cfg: Settings, h: Handler, reply: Reply)
    ensures Onward(cfg, h, reply) == Some(WriteCompleted) ==> h.pc == Execute && reply == Yes
  {}

  lemma WorkTraces(cfg: Settings, ws: seq<World>, steps: seq<Step>, n: nat, w: WorkerId)
    requires Path(cfg, ws, steps) && n < |steps| && steps[n].Work? && steps[n].worker in ws[n].workers
    requires w in ws[n + 1].workers && (w in ws[n].workers ==> HandlerTraced(ws, steps, n, w))
    ensures HandlerTraced(ws, steps, n + 1, w)
  {
    assert Linked(cfg, ws, steps, n);
    WorkUnfolds(cfg, ws[n], steps[n].worker, steps[n].env);
    if steps[n].worker == w {
      CompletesAfterCall(cfg, ws[n], w, steps[n].env);
      var h := ws[n + 1].workers[w];
      if h.pc == WriteCompleted { assert Returned(ws, steps, n, h.job, h.token, h.result); }
    } else {
      WorkerMovesItself(cfg, ws[n], steps[n].worker, steps[n].env, w);
      var h := ws[n].workers[w];
      if h.pc == WriteCompleted { StillReturned(ws, steps, n, h.job, h.token, h.result); }
    }
  }

  lemma HandlersTrace(cfg: Settings, ws: seq<World>, steps: seq<Step>, n: nat, w: WorkerId)
    requires Path(cfg, ws, steps) && n < |steps| && w in ws[n + 1].workers
    requires w in ws[n].workers ==> HandlerTraced(ws, steps, n, w)
    ensures HandlerTraced(ws, steps, n + 1, w)
  {
    if steps[n].Work? && steps[n].worker in ws[n].workers {
      WorkTraces(cfg, ws, steps, n, w);
    } else {
      IdleStep(cfg, ws, steps, n, w);
      var h := ws[n + 1].workers[w];
      if h.pc == WriteCompleted { StillReturned(ws, steps, n, h.job, h.token, h.result); }
    }
  }

  /** A step of somebody else puts no handler before its COMPLETED. */
  lemma IdleStep(cfg: Settings, ws: seq<World>, steps: seq<Step>, n: nat, w: WorkerId)
    requires Path(cfg, ws, steps) && n < |steps| && w in ws[n + 1].workers
    requires !(steps[n].Work? && steps[n].worker in ws[n].workers)
    ensures ws[n + 1].workers[w].pc == WriteCompleted ==>
              w in ws[n].workers && ws[n + 1].workers[w] == ws[n].workers[w]
  {
    assert Linked(cfg, ws, steps, n);
    if steps[n].Work? {
      WorkUnfolds(cfg, ws[n], steps[n].worker, steps[n].env);
    } else {
      WorkersFrame(cfg, ws[n], steps[n], w);
    }
  }

  lemma JobTraces(cfg: Settings, ws: seq<World>, steps: seq<Step>, n: nat, j: JobId)
    requires Path(cfg, ws, steps) && n < |steps| && j in ws[n + 1].db.jobs && Traced(ws, steps, n)
    ensures ResultTraced(ws, steps, n + 1, j)
  {
    assert Linked(cfg, ws, steps, n);
    if j in ws[n].db.jobs {
      JobMove(cfg, ws[n], steps[n], j);
      EnteredTraces(ws, steps, n, j);
    } else {
      NewJobIs(cfg, ws[n], steps[n], j);
    }
  }

  lemma EnteredTraces(ws: seq<World>, steps: seq<Step>, n: nat, j: JobId)
    requires |ws| == |steps| + 1 && n < |steps| && j in ws[n].db.jobs && Traced(ws, steps, n)
    requires JobMoves(ws[n], ws[n + 1], steps[n], j)
    ensures ResultTraced(ws, steps, n + 1, j)
  {
    var s, t := ws[n], ws[n + 1];
    if t.db.jobs[j].row.state == Succeeded {
      assert ResultTraced(ws, steps, n, j);
      if t.db.jobs[j] == s.db.jobs[j] {
        var job := s.db.jobs[j];
        StillReturned(ws, steps, n, j, job.log[|job.log| - 1].token.value, job.row.result.value);
      } else {
        var w :| WritesTo(s, steps[n], j, w) && Judge(s.db.jobs[j].row, w) == Accepted
                 && t.db.jobs[j] == Written(s.db.jobs[j], w);
        SucceedsByCompleted(s, t, steps[n], j, w);
        var v := steps[n].worker;
        assert HandlerTraced(ws, steps, n, v);
        StillReturned(ws, steps, n, j, s.workers[v].token, s.workers[v].result);
      }
    }
  }

  /** Only a handler's COMPLETED makes a job SUCCEEDED, and its result and token are the handler's. */
  lemma SucceedsByCompleted(s: World, t: World, step: Step, j: JobId, w: Write)
    requires j in s.db.jobs && j in t.db.jobs && WritesTo(s, step, j, w) && Judge(s.db.jobs[j].row, w) == Accepted
    requires t.db.jobs[j] == Written(s.db.jobs[j], w) && t.db.jobs[j].row.state == Succeeded
    ensures step.Work? && step.worker in s.workers
    ensures var h := s.workers[step.worker]; var job := t.db.jobs[j];
            && h.pc == WriteCompleted && h.job == j
            && job.row.result == Some(h.result) && job.log != []
            && job.log[|job.log| - 1].event == Completed && job.log[|job.log| - 1].token == Some(h.token)
  {
    assert w.event == Completed;
  }

  lemma {:induction false} RunTraced(cfg: Settings, ws: seq<World>, steps: seq<Step>, n: nat)
    requires IsRun(cfg, ws, steps) && n < |ws|
    ensures Traced(ws, steps, n)
  {
    if n > 0 {
      RunTraced(cfg, ws, steps, n - 1);
      forall j | j in ws[n].db.jobs ensures ResultTraced(ws, steps, n, j) { JobTraces(cfg, ws, steps, n - 1, j); }
      forall w | w in ws[n].workers ensures HandlerTraced(ws, steps, n, w) { HandlersTrace(cfg, ws, steps, n - 1, w); }
    }
  }

  /** A call is recorded, and under one lease there is one. */
  lemma CallIsRecorded(cfg: Settings, ws: seq<World>, steps: seq<Step>, m: nat, j: JobId, token: nat, result: nat)
    requires Path(cfg, ws, steps) && Returned(ws, steps, m, j, token, result)
    ensures Execution(j, token) in ws[m + 1].executed
  {
    assert Linked(cfg, ws, steps, m);
    var w := steps[m].worker;
    WorkUnfolds(cfg, ws[m], w, steps[m].env);
    assert ActionAt(cfg, w, ws[m].workers[w], steps[m].env) == Call;
  }

  lemma NoSecondCall(
      cfg: Settings, ws: seq<World>, steps: seq<Step>, m: nat, k: nat, j: JobId, token: nat, a: nat, b: nat)
    requires IsRun(cfg, ws, steps) && Returned(ws, steps, m, j, token, a) && m < k < |steps|
    ensures !Returned(ws, steps, k, j, token, b)
  {
    CallIsRecorded(cfg, ws, steps, m, j, token, a);
    PathGrows(cfg, ws, steps, m + 1, k);
    GenesisIsSafe(cfg);
    PathKeeps(cfg, ws, steps, k);
    assert forall w :: w in ws[k].workers ==> HandlerOk(cfg, ws[k], w);
  }

  /**
   In every run the row of a SUCCEEDED job holds the value returned by the one call of `execute` made
   under the lease of the COMPLETED that ends its log.
   */
  lemma ResultIsReturned(cfg: Settings, ws: seq<World>, steps: seq<Step>, n: nat, j: JobId)
    requires IsRun(cfg, ws, steps) && n < |ws| && InState(ws[n], j, Succeeded)
    ensures var job := ws[n].db.jobs[j];
            && job.log != [] && job.log[|job.log| - 1].event == Completed && job.row.result.Some?
            && exists m: nat, token: nat ::
                 && m < n && job.log[|job.log| - 1].token == Some(token)
                 && Returned(ws, steps, m, j, token, job.row.result.value)
                 && forall k: nat, other: nat :: Returned(ws, steps, k, j, token, other) ==> k == m
  {
    RunTraced(cfg, ws, steps, n);
    var job := ws[n].db.jobs[j];
    assert ResultTraced(ws, steps, n, j);
    var token := job.log[|job.log| - 1].token.value;
    var result := job.row.result.value;
    var m :| 0 <= m < n && Returned(ws, steps, m, j, token, result);
    forall k: nat, other: nat | Returned(ws, steps, k, j, token, other) ensures k == m {
      if m < k { NoSecondCall(cfg, ws, steps, m, k, j, token, result, other); }
      if k < m { NoSecondCall(cfg, ws, steps, k, m, j, token, other, result); }
    }
  }
}
