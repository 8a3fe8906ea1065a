/**
 The real loss of a job, exactly. An active job is stuck when the broker has seen every one of its
 outbox rows, none of its messages is alive, no quarantine of them has its audit still ahead, and no
 handler of it may still write. A stuck job stays as it is for good; any other active job can move.
 */
module Loss {
  import opened Domain
  import opened Keys
  import opened Records
  import opened System
  import opened Safety
  import opened Frames
  import opened WorkerSteps
  import opened OtherSteps
  import opened Guarantees
  import opened NoLoss
  import opened Promptness
  import opened Carriers
  import opened Relays
  import opened OldLives
  import opened Movement

  // ----- an advisory is raised for exhausted messages alone -----

  ghost predicate Advised(cfg: Settings, s: World) {
    forall i :: 0 <= i < |s.stream| && s.stream[i].advisory != NotRaised ==> cfg.maxDeliver <= s.stream[i].deliveries
  }

  ghost predicate Summoned(s: World) {
    forall l :: l in s.listeners ==>
      s.listeners[l].msg < |s.stream| && s.stream[s.listeners[l].msg].advisory != NotRaised
  }

  lemma EffectKeepsRaised(s: World, h: Handler, a: Action, i: nat)
    requires i < |s.stream|
    ensures var t := Effect(s, h, a); i < |t.stream| && t.stream[i].advisory == s.stream[i].advisory
  {}

  /** How an advisory that was not raised comes to be. */
  lemma AdvisoryRises(cfg: Settings, s: World, step: Step, i: nat)
    requires Summoned(s) && i < |s.stream|
    ensures var t := Next(cfg, s, step);
            && i < |t.stream|
            && (s.stream[i].advisory == NotRaised && t.stream[i].advisory != NotRaised ==> CanAdvise(cfg, s, i))
            && (s.stream[i].advisory != NotRaised ==> t.stream[i].advisory != NotRaised)
  {
    match step
    case Work(w, env) =>
      WorkUnfolds(cfg, s, w, env);
      if w in s.workers { EffectKeepsRaised(s, s.workers[w], ActionAt(cfg, w, s.workers[w], env), i); }
    case Listening(l, inWindow) =>
      ListenUnfolds(cfg, s, l, inWindow);
      if l in s.listeners { ListenerSettles(s, l, inWindow, i); }
    case _ => LetterFrame(cfg, s, step, i);
  }

  lemma ListenerSettles(s: World, l: string, inWindow: bool, i: nat)
    requires l in s.listeners && i < |s.stream|
    ensures var t := ListenerStep(s, l, inWindow);
            && i < |t.stream|
            && (t.stream[i].advisory == s.stream[i].advisory
                || (i == s.listeners[l].msg && t.stream[i].advisory == Advisory.Settled))
  {
    if s.listeners[l].msg < |s.stream| {
      match s.listeners[l].pc
      case Load =>
      case Copy =>
      case Mark =>
      case Remove =>
      case Settle =>
    }
  }

  lemma AdvisedStays(cfg: Settings, s: World, step: Step)
    requires Advised(cfg, s) && Summoned(s) && Grows(s, Next(cfg, s, step))
    ensures Advised(cfg, Next(cfg, s, step))
  {
    var t := Next(cfg, s, step);
    StreamLength(cfg, s, step);
    forall i | 0 <= i < |t.stream| && t.stream[i].advisory != NotRaised
      ensures cfg.maxDeliver <= t.stream[i].deliveries
    {
      if i < |s.stream| {
        assert SameLetter(s.stream[i], t.stream[i]);
        AdvisoryRises(cfg, s, step, i);
      } else {
        NewLetterIsStored(cfg, s, step);
      }
    }
  }

  lemma SummonedStays(cfg: Settings, s: World, step: Step)
    requires Summoned(s) && Grows(s, Next(cfg, s, step))
    ensures Summoned(Next(cfg, s, step))
  {
    var t := Next(cfg, s, step);
    forall l | l in t.listeners
      ensures t.listeners[l].msg < |t.stream| && t.stream[t.listeners[l].msg].advisory != NotRaised
    {
      if l in s.listeners { ListenerKeepsMessage(cfg, s, step, l); } else { OnlyFetchBegins(cfg, s, step, l); }
      AdvisoryRises(cfg, s, step, t.listeners[l].msg);
    }
  }

  lemma AdvisedLink(cfg: Settings, ws: seq<World>, steps: seq<Step>, n: nat)
    requires Path(cfg, ws, steps) && n < |steps| && Advised(cfg, ws[n]) && Summoned(ws[n])
    ensures Advised(cfg, ws[n + 1]) && Summoned(ws[n + 1])
  {
    assert Linked(cfg, ws, steps, n);
    NextGrows(cfg, ws[n], steps[n]);
    AdvisedStays(cfg, ws[n], steps[n]);
    SummonedStays(cfg, ws[n], steps[n]);
  }

  lemma {:induction false} PathAdvised(cfg: Settings, ws: seq<World>, steps: seq<Step>, n: nat)
    requires Path(cfg, ws, steps) && n < |ws| && Advised(cfg, ws[0]) && Summoned(ws[0])
    ensures Advised(cfg, ws[n]) && Summoned(ws[n])
  {
    if n > 0 {
      PathAdvised(cfg, ws, steps, n - 1);
      AdvisedLink(cfg, ws, steps, n - 1);
    }
  }

  /** In every reachable state a raised or settled advisory is that of an exhausted message. */
  lemma ReachableAdvised(cfg: Settings, s: World)
    requires Reachable(cfg, s)
    ensures Advised(cfg, s)
  {
    var ws, steps :| IsRun(cfg, ws, steps) && Last(ws) == s;
    PathAdvised(cfg, ws, steps, |ws| - 1);
  }

  // ----- stuck -----

  ghost predicate Idle(s: World, j: JobId)
    requires j in s.db.jobs
  {
    forall w :: w in s.workers && s.workers[w].job == j ==> !MayWrite(s.workers[w], s.db.jobs[j].row)
  }

  ghost predicate Stuck(s: World, j: JobId) {
    && j in s.db.jobs && Active(s.db.jobs[j].row.state)
    && Quiet(s, j, |s.db.outbox|) && Idle(s, j)
  }

  // ----- the record stays -----

  lemma HandlerLeavesRecord(cfg: Settings, s: World, w: WorkerId, env: Env, j: JobId)
    requires w in s.workers && j in s.db.jobs && Active(s.db.jobs[j].row.state)
    requires s.workers[w].job == j ==> !MayWrite(s.workers[w], s.db.jobs[j].row)
    ensures var t := WorkerStep(cfg, s, w, env); j in t.db.jobs && t.db.jobs[j] == s.db.jobs[j]
  {
    var h := s.workers[w];
    ActionShape(cfg, w, h, env);
    EffectLeavesRecord(s, h, ActionAt(cfg, w, h, env), j);
  }

  lemma EffectLeavesRecord(s: World, h: Handler, a: Action, j: JobId)
    requires j in s.db.jobs && Active(s.db.jobs[j].row.state)
    requires h.job == j ==> !MayWrite(h, s.db.jobs[j].row)
    requires a.Commit? ==> EventAt(h.pc).Some? && a.write == WorkerWrite(h, EventAt(h.pc).value)
    ensures var t := Effect(s, h, a); j in t.db.jobs && t.db.jobs[j] == s.db.jobs[j]
  {
    if a.Commit? && h.job == j { WriteIsRefused(h, s.db.jobs[j].row); }
  }

  lemma WriteIsRefused(h: Handler, row: JobRow)
    requires Active(row.state) && EventAt(h.pc).Some? && !MayWrite(h, row)
    ensures Judge(row, WorkerWrite(h, EventAt(h.pc).value)) != Accepted
  {
    match h.pc
    case WriteStarted =>
    case WriteCompleted =>
    case WriteRequeued =>
    case WriteFailed =>
  }

  lemma ListenerLeavesRecord(s: World, l: string, inWindow: bool, j: JobId)
    requires l in s.listeners && j in s.db.jobs
    requires Concerns(s, s.listeners[l].msg, j) ==> s.listeners[l].pc != Mark
    ensures var t := ListenerStep(s, l, inWindow); j in t.db.jobs && t.db.jobs[j] == s.db.jobs[j]
  {
    if s.listeners[l].msg < |s.stream| {
      match s.listeners[l].pc
      case Load =>
      case Copy =>
      case Mark =>
      case Remove =>
      case Settle =>
    }
  }

  lemma RecordStays(cfg: Settings, s: World, step: Step, j: JobId)
    requires Stuck(s, j) && MessagesOk(cfg, s)
    ensures var t := Next(cfg, s, step); j in t.db.jobs && t.db.jobs[j] == s.db.jobs[j]
  {
    match step
    case SubmitJob(_, _, _) =>
    case ReplayJob(id) => assert JudgeIn(s.db, j, ReplayWrite) == Illegal;
    case Work(w, env) =>
      WorkUnfolds(cfg, s, w, env);
      if w in s.workers { HandlerLeavesRecord(cfg, s, w, env, j); }
    case Listening(l, inWindow) =>
      ListenUnfolds(cfg, s, l, inWindow);
      if l in s.listeners { StuckListener(cfg, s, l, inWindow, j); }
    case _ => TablesFrame(cfg, s, step);
  }

  lemma StuckListener(cfg: Settings, s: World, l: string, inWindow: bool, j: JobId)
    requires l in s.listeners && j in s.db.jobs && MessagesOk(cfg, s) && ListenersDone(s, j, |s.db.outbox|)
    ensures var t := ListenerStep(s, l, inWindow); j in t.db.jobs && t.db.jobs[j] == s.db.jobs[j]
  {
    var i := s.listeners[l].msg;
    if Concerns(s, i, j) {
      assert MessageOk(cfg, s, i);
      assert Old(s, i, j, |s.db.outbox|);
    }
    ListenerLeavesRecord(s, l, inWindow, j);
  }

  // ----- the handlers stay idle -----

  /** A handler that may not write does not come to. */
  lemma PcStaysIdle(cfg: Settings, h: Handler, row: JobRow, reply: Reply)
    requires Active(row.state) && !MayWrite(h, row)
    requires EventAt(h.pc).Some? ==> reply == Ruled(Judge(row, WorkerWrite(h, EventAt(h.pc).value)))
    ensures var next := Onward(cfg, h, reply); next.Some? ==> !MayWrite(h.(pc := next.value), row)
  {
    if EventAt(h.pc).Some? { WriteIsRefused(h, row); }
    IdlePoints(cfg, h, reply);
  }

  lemma IdlePoints(cfg: Settings, h: Handler, reply: Reply)
    requires !(h.pc == CheckDone || h.pc == TakeClaim || h.pc == DrawToken)
    ensures var next := Onward(cfg, h, reply);
            next.Some? ==>
              && next.value != CheckDone && next.value != TakeClaim && next.value != DrawToken
              && next.value != TakeLease
              && (next.value == WriteStarted ==> h.pc == TakeLease)
              && (next.value == Execute ==> reply == Ruled(Accepted) && h.pc == WriteStarted)
              && (next.value == WriteCompleted || next.value == WriteRequeued || next.value == WriteFailed
                  ==> h.pc == Execute)
  {}

  lemma ActorStaysIdle(cfg: Settings, s: World, w: WorkerId, env: Env, j: JobId)
    requires w in s.workers && s.workers[w].job == j && j in s.db.jobs && Active(s.db.jobs[j].row.state)
    requires !MayWrite(s.workers[w], s.db.jobs[j].row)
    ensures var t := WorkerStep(cfg, s, w, env); w in t.workers ==> !MayWrite(t.workers[w], s.db.jobs[j].row)
  {
    var h := s.workers[w];
    var a := ActionAt(cfg, w, h, env);
    ActionShape(cfg, w, h, env);
    PcStaysIdle(cfg, h, s.db.jobs[j].row, Ask(s, h, a, env));
    LearnsNoToken(s, h, a, env);
  }

  /** A stuck job is not delivered. */
  lemma NoDeliveryOfStuck(cfg: Settings, s: World, w: WorkerId, msg: nat, j: JobId)
    requires LettersDead(s, j, |s.db.outbox|) && MessagesOk(cfg, s) && Advised(cfg, s) && Concerns(s, msg, j)
    ensures !CanDeliver(cfg, s, w, msg)
  {
    assert MessageOk(cfg, s, msg);
    assert Old(s, msg, j, |s.db.outbox|);
  }

  lemma HandlerStaysIdle(cfg: Settings, s: World, step: Step, w: WorkerId, j: JobId)
    requires Stuck(s, j) && MessagesOk(cfg, s) && Advised(cfg, s)
    requires w in Next(cfg, s, step).workers && Next(cfg, s, step).workers[w].job == j
    ensures !MayWrite(Next(cfg, s, step).workers[w], s.db.jobs[j].row)
  {
    if step.Work? {
      WorkUnfolds(cfg, s, step.worker, step.env);
      if step.worker in s.workers { WorkStaysIdle(cfg, s, step.worker, step.env, w, j); }
    } else {
      WorkersFrame(cfg, s, step, w);
      if step.Deliver? && Concerns(s, step.msg, j) { NoDeliveryOfStuck(cfg, s, w, step.msg, j); }
    }
  }

  lemma WorkStaysIdle(cfg: Settings, s: World, v: WorkerId, env: Env, w: WorkerId, j: JobId)
    requires v in s.workers && j in s.db.jobs && Active(s.db.jobs[j].row.state) && Idle(s, j)
    requires w in WorkerStep(cfg, s, v, env).workers && WorkerStep(cfg, s, v, env).workers[w].job == j
    ensures !MayWrite(WorkerStep(cfg, s, v, env).workers[w], s.db.jobs[j].row)
  {
    WorkKeepsWorkers(cfg, s, v, env, w);
    if v == w {
      WorkerKeepsJob(cfg, s, w, env);
      ActorStaysIdle(cfg, s, w, env, j);
    } else {
      WorkerMovesItself(cfg, s, v, env, w);
    }
  }

  // ----- stuck for good -----

  /** Rows that other jobs add change nothing for this one. */
  lemma QuietWidens(cfg: Settings, s: World, t: World, j: JobId)
    requires Quiet(t, j, |s.db.outbox|) && MessagesOk(cfg, t) && AddsRow(s, t) && j in s.db.jobs
    requires !InState(s, j, DeadLetter)
    ensures Quiet(t, j, |t.db.outbox|)
  {
    forall i | 0 <= i < |t.stream| && Old(t, i, j, |t.db.outbox|) ensures Old(t, i, j, |s.db.outbox|) {
      assert MessageOk(cfg, t, i);
    }
  }

  lemma QuietAfter(cfg: Settings, s: World, step: Step, j: JobId)
    requires Stuck(s, j) && !Reopens(s, step, j, |s.db.outbox|) && MessagesOk(cfg, Next(cfg, s, step))
    requires forall l :: l in s.listeners ==> ListenerOk(s, l)
    ensures Quiet(Next(cfg, s, step), j, |Next(cfg, s, step).db.outbox|)
  {
    QuietStays(cfg, s, step, j, |s.db.outbox|);
    OutboxMoves(cfg, s, step);
    if AddsRow(s, Next(cfg, s, step)) { QuietWidens(cfg, s, Next(cfg, s, step), j); }
  }

  lemma StuckStays(cfg: Settings, s: World, step: Step, j: JobId)
    requires Stuck(s, j) && !Reopens(s, step, j, |s.db.outbox|)
    requires MessagesOk(cfg, s) && Advised(cfg, s) && MessagesOk(cfg, Next(cfg, s, step))
    requires forall l :: l in s.listeners ==> ListenerOk(s, l)
    ensures Stuck(Next(cfg, s, step), j) && Next(cfg, s, step).db.jobs[j] == s.db.jobs[j]
  {
    var t := Next(cfg, s, step);
    RecordStays(cfg, s, step, j);
    QuietAfter(cfg, s, step, j);
    forall w | w in t.workers && t.workers[w].job == j ensures !MayWrite(t.workers[w], t.db.jobs[j].row) {
      HandlerStaysIdle(cfg, s, step, w, j);
    }
  }

  ghost predicate NeverRepublished(ws: seq<World>, steps: seq<Step>, j: JobId)
    requires |ws| == |steps| + 1
  {
    forall n :: 0 <= n < |steps| ==> !Reopens(ws[n], steps[n], j, |ws[n].db.outbox|)
  }

  lemma StuckNext(cfg: Settings, ws: seq<World>, steps: seq<Step>, n: nat, j: JobId)
    requires Path(cfg, ws, steps) && n < |steps| && Stuck(ws[n], j) && !Reopens(ws[n], steps[n], j, |ws[n].db.outbox|)
    requires MessagesOk(cfg, ws[n]) && Advised(cfg, ws[n]) && MessagesOk(cfg, ws[n + 1])
    requires forall l :: l in ws[n].listeners ==> ListenerOk(ws[n], l)
    ensures Stuck(ws[n + 1], j) && ws[n + 1].db.jobs[j] == ws[n].db.jobs[j]
  {
    assert Linked(cfg, ws, steps, n);
    StuckStays(cfg, ws[n], steps[n], j);
  }

  lemma StuckLink(cfg: Settings, ws: seq<World>, steps: seq<Step>, n: nat, j: JobId)
    requires Path(cfg, ws, steps) && n < |steps| && Reachable(cfg, ws[0])
    requires Stuck(ws[n], j) && !Reopens(ws[n], steps[n], j, |ws[n].db.outbox|)
    ensures Stuck(ws[n + 1], j) && ws[n + 1].db.jobs[j] == ws[n].db.jobs[j]
  {
    PathReachable(cfg, ws, steps, n);
    PathReachable(cfg, ws, steps, n + 1);
    ReachableAdvised(cfg, ws[n]);
    ReachableIsSafe(cfg, ws[n]);
    ReachableIsSafe(cfg, ws[n + 1]);
    StuckNext(cfg, ws, steps, n, j);
  }

  /**
   What is stuck stays stuck: along every path without a publication of one of its rows outside the
   dedupe window, the job's record stays as it is.
   */
  lemma {:induction false} StuckForGood(cfg: Settings, ws: seq<World>, steps: seq<Step>, n: nat, j: JobId)
    requires Path(cfg, ws, steps) && n < |ws| && Reachable(cfg, ws[0]) && Stuck(ws[0], j)
    requires NeverRepublished(ws, steps, j)
    ensures Stuck(ws[n], j) && ws[n].db.jobs[j] == ws[0].db.jobs[j]
  {
    if n > 0 {
      StuckForGood(cfg, ws, steps, n - 1, j);
      StuckLink(cfg, ws, steps, n - 1, j);
    }
  }

  // ----- and nothing else is -----

  /** Some steps, with every publication inside the window, extend the job's log. */
  ghost predicate CanMove(cfg: Settings, s: World, j: JobId) {
    exists t :: Leads(cfg, s, t) && Extended(s, t, j)
  }

  lemma UnstuckMoves(cfg: Settings, s: World, j: JobId)
    requires Reachable(cfg, s) && cfg.batchSize > 0 && j in s.db.jobs && Active(s.db.jobs[j].row.state)
    requires !Stuck(s, j)
    ensures CanMove(cfg, s, j)
  {
    if !Quiet(s, j, |s.db.outbox|) {
      UnquietMoves(cfg, s, j);
    } else {
      var w :| w in s.workers && s.workers[w].job == j && MayWrite(s.workers[w], s.db.jobs[j].row);
      GroundworkIsLaid(cfg, s, j);
      var t := HandlerWrites(cfg, s, w, j);
    }
  }

  lemma UnquietMoves(cfg: Settings, s: World, j: JobId)
    requires Reachable(cfg, s) && cfg.batchSize > 0 && j in s.db.jobs && Active(s.db.jobs[j].row.state)
    requires !Quiet(s, j, |s.db.outbox|)
    ensures CanMove(cfg, s, j)
  {
    var u, l, i := UnquietMarks(cfg, s, j, |s.db.outbox|);
    AuditDeadLetters(cfg, u, l, true, i, j);
    var t := Step1(cfg, s, u, Listening(l, true));
    assert Extended(s, t, j);
  }

  /**
   The loss of a job, exactly: an active job of a reachable state is stuck if and only if no steps,
   with every publication inside the dedupe window, ever extend its log.
   */
  lemma StuckExactly(cfg: Settings, s: World, j: JobId)
    requires Reachable(cfg, s) && cfg.batchSize > 0 && j in s.db.jobs && Active(s.db.jobs[j].row.state)
    ensures Stuck(s, j) <==> !CanMove(cfg, s, j)
  {
    if Stuck(s, j) { StuckCannotMove(cfg, s, j); } else { UnstuckMoves(cfg, s, j); }
  }

  lemma StuckCannotMove(cfg: Settings, s: World, j: JobId)
    requires Reachable(cfg, s) && Stuck(s, j)
    ensures !CanMove(cfg, s, j)
  {
    forall t | Leads(cfg, s, t) ensures !Extended(s, t, j) {
      var ws, steps :| Path(cfg, ws, steps) && ws[0] == s && Last(ws) == t && AllPublishInWindow(steps);
      assert forall n :: 0 <= n < |steps| ==> PublishesInWindow(steps[n]);
      StuckForGood(cfg, ws, steps, |ws| - 1, j);
    }
  }

  /** A stuck job has no carrier; without a carrier it may still be finished by a handler in flight. */
  lemma StuckIsUncarried(cfg: Settings, s: World, j: JobId)
    requires Reachable(cfg, s) && Stuck(s, j)
    ensures !HasCarrier(s, j)
  {
    if HasCarrier(s, j) { CarrierIsUnquiet(cfg, s, j); }
  }
}
