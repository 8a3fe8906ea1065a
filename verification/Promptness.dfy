/**
 The timing assumption under which no COMPLETED is ever misjudged: the key-value store keeps an
 entry for its TTL, and a handler that still writes to the database does so before its claim has
 expired. A handler that pauses longer must be dead.
 */
module Promptness {
  import opened Core
  import opened Domain
  import opened Keys
  import opened Records
  import opened System
  import opened Safety
  import opened Frames
  import opened WorkerSteps
  import opened OtherSteps
  import opened Guarantees
  import opened NoLoss

  /** The points between taking the claim and giving it back. */
  ghost predicate HasClaim(pc: Pc) {
    pc == DrawToken || pc == TakeLease || pc == DropClaimBusy || pc == WriteStarted || InExecution(pc)
    || pc == MarkDone || pc == DropClaimDone || pc == DropClaimRetry || pc == DropClaimFailed || pc == DropClaimObsolete
  }

  ghost predicate WritesInTime(s: World, w: WorkerId)
    requires w in s.workers
  {
    EventAt(s.workers[w].pc).Some? ==> s.now < s.workers[w].claimUntil
  }

  /** As far as the job is concerned, no error is swallowed, no claim is lost early and no write is late. */
  ghost predicate Prompt(s: World, step: Step, j: JobId) {
    && (step.Swallow? && step.listener in s.listeners ==> !Concerns(s, s.listeners[step.listener].msg, j))
    && step != Lose(ClaimKey(j))
    && (step.Work? && step.worker in s.workers && s.workers[step.worker].job == j ==> WritesInTime(s, step.worker))
  }

  ghost predicate PromptRun(ws: seq<World>, steps: seq<Step>, j: JobId)
    requires |ws| == |steps| + 1
  {
    forall n :: 0 <= n < |steps| ==> Prompt(ws[n], steps[n], j)
  }

  /** A claim that is held and has not expired is what the store holds for the job. */
  ghost predicate ClaimHeld(s: World, w: WorkerId)
    requires w in s.workers
  {
    var h := s.workers[w];
    HasClaim(h.pc) && s.now < h.claimUntil ==>
      ClaimKey(h.job) in s.kv && s.kv[ClaimKey(h.job)] == KV.Entry(Owner(w, h.delivery.attempt), h.claimUntil)
  }

  /** While its claim lasts, an execution's carrier is not waiting in QUEUED for somebody else. */
  ghost predicate Undisturbed(s: World, w: WorkerId)
    requires w in s.workers
  {
    var h := s.workers[w];
    InExecution(h.pc) && s.now < h.claimUntil && h.delivery.msg < |s.stream| ==>
      !(InState(s, h.job, Queued) && s.stream[h.delivery.msg].row == LatestRow(s.db.outbox, h.job))
  }

  ghost predicate Timely(s: World, j: JobId) {
    forall w :: w in s.workers && s.workers[w].job == j ==> ClaimHeld(s, w) && Undisturbed(s, w)
  }

  // ----- claims -----

  lemma ClaimShape(cfg: Settings, w: WorkerId, h: Handler, env: Env)
    ensures var a := ActionAt(cfg, w, h, env);
            && (a.Drop? && a.key.ClaimKey? ==> a.owner.worker == w)
            && (a.Drop? && HasClaim(h.pc) && a.key.ClaimKey? ==>
                  forall reply :: Onward(cfg, h, reply).Some? ==> !HasClaim(Onward(cfg, h, reply).value))
            && (a.Take? && a.key.ClaimKey? <==> h.pc == TakeClaim)
  {}

  lemma ClaimStarts(cfg: Settings, h: Handler, reply: Reply)
    ensures var next := Onward(cfg, h, reply);
            next.Some? && HasClaim(next.value) ==> HasClaim(h.pc) || (h.pc == TakeClaim && reply == Yes)
  {}

  lemma TakenClaim(cfg: Settings, s: World, w: WorkerId, env: Env)
    requires w in s.workers && s.workers[w].pc == TakeClaim
    ensures var t := WorkerStep(cfg, s, w, env); w in t.workers ==> ClaimHeld(t, w)
  {
    var h := s.workers[w];
    var a := Action.Take(ClaimKey(h.job), Owner(w, h.delivery.attempt), cfg.leaseTtl);
    assert ActionAt(cfg, w, h, env) == a;
    if ClaimKey(h.job) in s.kv {
      assert Onward(cfg, h, Ask(s, h, a, env)) == Some(NakBusy);
    } else {
      assert Onward(cfg, h, Ask(s, h, a, env)) == Some(DrawToken);
    }
  }

  /** A live entry survives every effect but its own deletion. */
  lemma EntryStays(s: World, h: Handler, a: Action, key: Key)
    requires key in s.kv && !(a.Drop? && a.key == key)
    ensures key in Effect(s, h, a).kv && Effect(s, h, a).kv[key] == s.kv[key]
  {}

  lemma LearnsNoClaim(s: World, h: Handler, a: Action, env: Env)
    requires !(a.Take? && a.key.ClaimKey?)
    ensures var g := Learn(s, h, a, env); g.claimUntil == h.claimUntil && g.job == h.job && g.delivery == h.delivery
    ensures Effect(s, h, a).now == s.now
  {}

  /** The acting handler keeps, takes or gives up its claim. */
  lemma ActorClaims(cfg: Settings, s: World, w: WorkerId, env: Env)
    requires w in s.workers && ClaimHeld(s, w)
    ensures var t := WorkerStep(cfg, s, w, env); w in t.workers ==> ClaimHeld(t, w)
  {
    var h := s.workers[w];
    if h.pc == TakeClaim {
      TakenClaim(cfg, s, w, env);
    } else {
      var a := ActionAt(cfg, w, h, env);
      ClaimShape(cfg, w, h, env);
      ClaimStarts(cfg, h, Ask(s, h, a, env));
      LearnsNoClaim(s, h, a, env);
      var next := Onward(cfg, h, Ask(s, h, a, env));
      if next.Some? && HasClaim(next.value) && s.now < h.claimUntil { EntryStays(s, h, a, ClaimKey(h.job)); }
    }
  }

  /** Nobody else takes a claim away, or takes one that is held. */
  lemma OthersClaims(cfg: Settings, s: World, v: WorkerId, env: Env, w: WorkerId)
    requires v in s.workers && w in s.workers && v != w && ClaimHeld(s, w)
    ensures var t := WorkerStep(cfg, s, v, env); w in t.workers && t.workers[w] == s.workers[w] && ClaimHeld(t, w)
  {
    WorkerMovesItself(cfg, s, v, env, w);
    WorkTakesNoTime(cfg, s, v, env);
    var h := s.workers[w];
    if HasClaim(h.pc) && s.now < h.claimUntil { NobodyTouchesMine(cfg, s, v, env, ClaimKey(h.job)); }
  }

  lemma WorkTakesNoTime(cfg: Settings, s: World, v: WorkerId, env: Env)
    requires v in s.workers
    ensures WorkerStep(cfg, s, v, env).now == s.now
  {
    var g := s.workers[v];
    assert Effect(s, g, ActionAt(cfg, v, g, env)).now == s.now;
  }

  /** A handler that the workers leave alone is fresh, dying or where it was. */
  lemma AmbientPc(cfg: Settings, s: World, step: Step, w: WorkerId)
    requires !step.Work?
    ensures var t := Next(cfg, s, step);
            w in t.workers && HasClaim(t.workers[w].pc) ==> w in s.workers && t.workers[w] == s.workers[w]
  {
    WorkersFrame(cfg, s, step, w);
  }

  lemma AmbientClaims(cfg: Settings, s: World, step: Step, w: WorkerId)
    requires !step.Work? && (w in s.workers ==> ClaimHeld(s, w) && step != Lose(ClaimKey(s.workers[w].job)))
    ensures var t := Next(cfg, s, step); w in t.workers ==> ClaimHeld(t, w)
  {
    KeysFrame(cfg, s, step);
    AmbientPc(cfg, s, step, w);
    ghost var t := Next(cfg, s, step);
    if w in t.workers && HasClaim(t.workers[w].pc) && t.now < t.workers[w].claimUntil {
      assert ClaimKey(s.workers[w].job) in s.kv;
    }
  }

  lemma ClaimsKeep(cfg: Settings, s: World, step: Step, w: WorkerId)
    requires w in s.workers ==> ClaimHeld(s, w) && step != Lose(ClaimKey(s.workers[w].job))
    requires w in Next(cfg, s, step).workers
    ensures ClaimHeld(Next(cfg, s, step), w)
  {
    if step.Work? && step.worker in s.workers {
      if step.worker == w {
        ActorClaims(cfg, s, w, step.env);
      } else {
        WorkerMovesItself(cfg, s, step.worker, step.env, w);
        OthersClaims(cfg, s, step.worker, step.env, w);
      }
    } else if !step.Work? {
      AmbientClaims(cfg, s, step, w);
    }
  }

  // ----- executions -----

  /** Outside the workers, only a replay brings a job back to QUEUED, and it renews the latest row. */
  ghost predicate RequeuedByReplay(s: World, t: World, j: JobId) {
    j in s.db.jobs && InState(t, j, Queued) && !InState(s, j, Queued) ==> LatestRow(t.db.outbox, j) >= |s.db.outbox|
  }

  lemma ListenerRequeuesNothing(s: World, l: string, inWindow: bool, j: JobId)
    requires l in s.listeners
    ensures RequeuedByReplay(s, ListenerStep(s, l, inWindow), j)
  {
    ListenerWrites(s, l, inWindow);
  }

  lemma ReplayRequeues(s: World, id: JobId, j: JobId)
    ensures RequeuedByReplay(s, s.(db := Reinjected(s.db, id)), j)
  {}

  lemma AmbientRequeuesNothing(cfg: Settings, s: World, step: Step, j: JobId)
    requires !step.Work?
    ensures RequeuedByReplay(s, Next(cfg, s, step), j)
  {
    match step
    case Listening(l, inWindow) =>
      ListenUnfolds(cfg, s, l, inWindow);
      if l in s.listeners { ListenerRequeuesNothing(s, l, inWindow, j); }
    case ReplayJob(id) => ReplayRequeues(s, id, j);
    case SubmitJob(_, _, _) =>
    case _ => TablesFrame(cfg, s, step);
  }

  /** If the job is in QUEUED with this row latest after the step, it was so before. */
  lemma WaitingBefore(s: World, t: World, j: JobId, row: nat)
    requires OutboxGrows(s.db.outbox, t.db.outbox) && RequeuedByReplay(s, t, j) && j in s.db.jobs
    requires row < |s.db.outbox| && s.db.outbox[row].job == j
    requires InState(t, j, Queued) && row == LatestRow(t.db.outbox, j)
    ensures InState(s, j, Queued) && row == LatestRow(s.db.outbox, j)
  {
    LatestIsLatest(s.db.outbox, j);
    LatestGrows(s.db.outbox, t.db.outbox, j);
  }

  lemma AmbientUndisturbed(cfg: Settings, s: World, step: Step, w: WorkerId)
    requires !step.Work? && w in Next(cfg, s, step).workers && Grows(s, Next(cfg, s, step))
    requires w in s.workers ==>
      Undisturbed(s, w) && HandlerOk(cfg, s, w) && MessageOk(cfg, s, s.workers[w].delivery.msg)
    ensures Undisturbed(Next(cfg, s, step), w)
  {
    var t := Next(cfg, s, step);
    var h := t.workers[w];
    if InExecution(h.pc) {
      AmbientHandlers(cfg, s, step, w);
      AmbientRequeuesNothing(cfg, s, step, h.job);
      assert SameLetter(s.stream[h.delivery.msg], t.stream[h.delivery.msg]);
      if InState(t, h.job, Queued) && t.stream[h.delivery.msg].row == LatestRow(t.db.outbox, h.job) {
        WaitingBefore(s, t, h.job, s.stream[h.delivery.msg].row);
      }
    }
  }

  lemma AmbientHandlers(cfg: Settings, s: World, step: Step, w: WorkerId)
    requires !step.Work? && w in Next(cfg, s, step).workers && InExecution(Next(cfg, s, step).workers[w].pc)
    ensures w in s.workers && s.workers[w] == Next(cfg, s, step).workers[w]
  {
    WorkersFrame(cfg, s, step, w);
  }

  /** Two handlers of one job cannot both hold a claim that has not expired. */
  lemma ClaimsExclude(s: World, v: WorkerId, w: WorkerId)
    requires v in s.workers && w in s.workers && s.workers[v].job == s.workers[w].job
    requires ClaimHeld(s, v) && ClaimHeld(s, w)
    requires HasClaim(s.workers[v].pc) && s.now < s.workers[v].claimUntil
    requires HasClaim(s.workers[w].pc) && s.now < s.workers[w].claimUntil
    ensures v == w
  {}

  /** What one handler's effect can change for another. */
  lemma SeenByOther(cfg: Settings, s: World, v: WorkerId, env: Env, w: WorkerId)
    requires v in s.workers && w in s.workers && v != w && s.workers[w].job in s.db.jobs
    ensures var t := WorkerStep(cfg, s, v, env); var g, h := s.workers[v], s.workers[w];
            && w in t.workers && t.workers[w] == h && t.now == s.now && t.db.outbox == s.db.outbox
            && (EventAt(g.pc).None? || g.job != h.job ==> h.job in t.db.jobs && t.db.jobs[h.job] == s.db.jobs[h.job])
  {
    WorkerMovesItself(cfg, s, v, env, w);
    ActionShape(cfg, v, s.workers[v], env);
    EffectTouches(s, s.workers[v], ActionAt(cfg, v, s.workers[v], env));
  }

  lemma OtherUndisturbed(cfg: Settings, s: World, v: WorkerId, env: Env, w: WorkerId, t: World)
    requires v in s.workers && w in s.workers && v != w && t == WorkerStep(cfg, s, v, env)
    requires s.workers[v].job == s.workers[w].job ==> ClaimHeld(s, v) && Prompt(s, Work(v, env), s.workers[w].job)
    requires ClaimHeld(s, w) && Undisturbed(s, w) && HandlerOk(cfg, s, w)
    requires Grows(s, t)
    ensures w in t.workers && Undisturbed(t, w)
  {
    SeenByOther(cfg, s, v, env, w);
    OtherUndisturbedIn(s, v, w, t);
  }

  lemma OtherUndisturbedIn(s: World, v: WorkerId, w: WorkerId, t: World)
    requires v in s.workers && w in s.workers && v != w && ClaimHeld(s, w) && Undisturbed(s, w)
    requires s.workers[v].job == s.workers[w].job ==>
               ClaimHeld(s, v) && WritesInTime(s, v)
    requires var g, h := s.workers[v], s.workers[w];
             && h.job in s.db.jobs && h.delivery.msg < |s.stream| && StreamGrows(s.stream, t.stream)
             && w in t.workers && t.workers[w] == h && t.now == s.now && t.db.outbox == s.db.outbox
             && (EventAt(g.pc).None? || g.job != h.job ==> h.job in t.db.jobs && t.db.jobs[h.job] == s.db.jobs[h.job])
    ensures Undisturbed(t, w)
  {
    var g, h := s.workers[v], s.workers[w];
    assert SameLetter(s.stream[h.delivery.msg], t.stream[h.delivery.msg]);
    if InExecution(h.pc) && s.now < h.claimUntil {
      NotBothWrite(s, v, w);
      UndisturbedStays(s, t, w);
    }
  }

  lemma NotBothWrite(s: World, v: WorkerId, w: WorkerId)
    requires v in s.workers && w in s.workers && v != w && ClaimHeld(s, w)
    requires s.workers[v].job == s.workers[w].job ==> ClaimHeld(s, v) && WritesInTime(s, v)
    requires InExecution(s.workers[w].pc) && s.now < s.workers[w].claimUntil
    ensures EventAt(s.workers[v].pc).None? || s.workers[v].job != s.workers[w].job
  {
    if EventAt(s.workers[v].pc).Some? && s.workers[v].job == s.workers[w].job { ClaimsExclude(s, v, w); }
  }

  lemma UndisturbedStays(s: World, t: World, w: WorkerId)
    requires w in s.workers && w in t.workers && t.workers[w] == s.workers[w] && s.now <= t.now && Undisturbed(s, w)
    requires s.workers[w].delivery.msg < |s.stream| && s.workers[w].delivery.msg < |t.stream|
    requires s.stream[s.workers[w].delivery.msg].row == t.stream[s.workers[w].delivery.msg].row
    requires t.db.outbox == s.db.outbox
    requires s.workers[w].job in s.db.jobs && s.workers[w].job in t.db.jobs
    requires t.db.jobs[s.workers[w].job] == s.db.jobs[s.workers[w].job]
    ensures Undisturbed(t, w)
  {}

  lemma EffectTouches(s: World, h: Handler, a: Action)
    ensures var t := Effect(s, h, a);
            && t.now == s.now && t.db.outbox == s.db.outbox
            && (!a.Commit? ==> t.db == s.db)
            && (forall j :: j in s.db.jobs && j != h.job ==> j in t.db.jobs && t.db.jobs[j] == s.db.jobs[j])
  {}

  lemma StartedIsRunning(cfg: Settings, s: World, w: WorkerId, env: Env)
    requires w in s.workers && s.workers[w].pc == WriteStarted
    requires JudgeIn(s.db, s.workers[w].job, WorkerWrite(s.workers[w], Started)) == Accepted
    ensures InState(WorkerStep(cfg, s, w, env), s.workers[w].job, Running)
    ensures var t := WorkerStep(cfg, s, w, env); w in t.workers ==> t.workers[w].job == s.workers[w].job
  {
    assert ActionAt(cfg, w, s.workers[w], env) == Commit(WorkerWrite(s.workers[w], Started));
  }

  lemma CallChangesNothing(cfg: Settings, s: World, w: WorkerId, env: Env)
    requires w in s.workers && s.workers[w].pc == Execute
    ensures var t := WorkerStep(cfg, s, w, env);
            && t.db == s.db && t.now == s.now && t.stream == s.stream
            && w in t.workers && t.workers[w] == s.workers[w].(pc := t.workers[w].pc, result := env.result)
  {
    assert ActionAt(cfg, w, s.workers[w], env) == Call;
  }

  lemma ActorUndisturbed(cfg: Settings, s: World, w: WorkerId, env: Env)
    requires w in s.workers && Undisturbed(s, w) && w in WorkerStep(cfg, s, w, env).workers
    ensures Undisturbed(WorkerStep(cfg, s, w, env), w)
  {
    var h := s.workers[w];
    var a := ActionAt(cfg, w, h, env);
    ActionShape(cfg, w, h, env);
    ExecutionStarts(cfg, h, Ask(s, h, a, env));
    if h.pc == Execute {
      CallChangesNothing(cfg, s, w, env);
    } else if InExecution(WorkerStep(cfg, s, w, env).workers[w].pc) {
      StartedIsRunning(cfg, s, w, env);
    }
  }

  lemma ExecutionStarts(cfg: Settings, h: Handler, reply: Reply)
    ensures var next := Onward(cfg, h, reply);
            next.Some? && InExecution(next.value) ==>
              h.pc == Execute || (h.pc == WriteStarted && reply == Ruled(Accepted))
  {}

  // ----- prompt runs -----

  lemma WorkTimely(cfg: Settings, s: World, v: WorkerId, env: Env, w: WorkerId, j: JobId)
    requires HandlersOk(cfg, s) && Timely(s, j) && Prompt(s, Work(v, env), j) && v in s.workers
    requires w in s.workers && s.workers[w].job == j
    requires w in WorkerStep(cfg, s, v, env).workers && Grows(s, WorkerStep(cfg, s, v, env))
    ensures Undisturbed(WorkerStep(cfg, s, v, env), w)
  {
    assert HandlerOk(cfg, s, w);
    if v == w { ActorUndisturbed(cfg, s, w, env); }
    else { OtherUndisturbed(cfg, s, v, env, w, WorkerStep(cfg, s, v, env)); }
  }

  /** A worker that is busy before and after a step is busy with the same job. */
  lemma JobStays(cfg: Settings, s: World, step: Step, w: WorkerId)
    requires w in s.workers && w in Next(cfg, s, step).workers
    ensures Next(cfg, s, step).workers[w].job == s.workers[w].job
  {
    match step
    case Work(v, env) =>
      WorkUnfolds(cfg, s, v, env);
      if v == w { WorkerKeepsJob(cfg, s, w, env); } else if v in s.workers { WorkerMovesItself(cfg, s, v, env, w); }
    case _ => WorkersFrame(cfg, s, step, w);
  }

  lemma WorkKeepsWorkers(cfg: Settings, s: World, v: WorkerId, env: Env, w: WorkerId)
    requires v in s.workers && w in WorkerStep(cfg, s, v, env).workers
    ensures w in s.workers
  {
    if v != w { WorkerMovesItself(cfg, s, v, env, w); }
  }

  lemma HandlerTimely(cfg: Settings, s: World, step: Step, w: WorkerId, j: JobId)
    requires HandlersOk(cfg, s) && MessagesOk(cfg, s) && Timely(s, j) && Prompt(s, step, j)
    requires w in Next(cfg, s, step).workers && (w in s.workers ==> s.workers[w].job == j)
    requires Grows(s, Next(cfg, s, step))
    ensures Undisturbed(Next(cfg, s, step), w)
  {
    match step
    case Work(v, env) =>
      WorkUnfolds(cfg, s, v, env);
      if v in s.workers {
        WorkKeepsWorkers(cfg, s, v, env, w);
        WorkTimely(cfg, s, v, env, w, j);
      } else {
        assert Undisturbed(s, w);
      }
    case _ =>
      if w in s.workers { StreamOfHandler(cfg, s, w); }
      AmbientUndisturbed(cfg, s, step, w);
  }

  lemma StreamOfHandler(cfg: Settings, s: World, w: WorkerId)
    requires HandlersOk(cfg, s) && MessagesOk(cfg, s) && w in s.workers
    ensures HandlerOk(cfg, s, w) && MessageOk(cfg, s, s.workers[w].delivery.msg)
  {}

  lemma TimelyKeeps(cfg: Settings, s: World, step: Step, j: JobId)
    requires Inv(cfg, s) && Timely(s, j) && Prompt(s, step, j)
    ensures Timely(Next(cfg, s, step), j)
  {
    NextGrows(cfg, s, step);
    var t := Next(cfg, s, step);
    forall w | w in t.workers && t.workers[w].job == j ensures ClaimHeld(t, w) && Undisturbed(t, w) {
      if w in s.workers { JobStays(cfg, s, step, w); }
      ClaimsKeep(cfg, s, step, w);
      HandlerTimely(cfg, s, step, w, j);
    }
  }

  /** A prompt handler never misjudges. */
  lemma PromptIsSober(s: World, step: Step, j: JobId)
    requires Timely(s, j) && Prompt(s, step, j)
    ensures Sober(s, step, j)
  {
    if step.Work? && step.worker in s.workers && s.workers[step.worker].job == j { assert Undisturbed(s, step.worker); }
  }

  lemma TimelyLink(cfg: Settings, ws: seq<World>, steps: seq<Step>, n: nat, j: JobId)
    requires IsRun(cfg, ws, steps) && n < |steps| && Prompt(ws[n], steps[n], j) && Timely(ws[n], j)
    ensures Timely(ws[n + 1], j)
  {
    GenesisIsSafe(cfg);
    PathKeeps(cfg, ws, steps, n);
    TimelyKeeps(cfg, ws[n], steps[n], j);
    assert Linked(cfg, ws, steps, n);
  }

  lemma {:induction false} PromptRunIsTimely(cfg: Settings, ws: seq<World>, steps: seq<Step>, n: nat, j: JobId)
    requires IsRun(cfg, ws, steps) && PromptRun(ws, steps, j) && n < |ws|
    ensures Timely(ws[n], j)
  {
    if n > 0 {
      PromptRunIsTimely(cfg, ws, steps, n - 1, j);
      TimelyLink(cfg, ws, steps, n - 1, j);
    }
  }

  /** So a run that is prompt about a job is sober about it. */
  lemma PromptRunIsSober(cfg: Settings, ws: seq<World>, steps: seq<Step>, j: JobId)
    requires IsRun(cfg, ws, steps) && PromptRun(ws, steps, j)
    ensures SoberRun(ws, steps, j)
  {
    forall n | 0 <= n < |steps| ensures Sober(ws[n], steps[n], j) {
      PromptRunIsTimely(cfg, ws, steps, n, j);
      PromptIsSober(ws[n], steps[n], j);
    }
  }

  /**
   No job is lost: if the listener fails on its messages only by dying, the key-value store keeps its
   claims for their TTL, and its handlers write to the database before their claims expire, then in
   every state of the run the job, while QUEUED or RUNNING, has the carrier born of its latest
   submission or replay. What happens to other jobs does not matter.
   */
  lemma NoJobIsLost(cfg: Settings, ws: seq<World>, steps: seq<Step>, n: nat, j: JobId)
    requires IsRun(cfg, ws, steps) && PromptRun(ws, steps, j) && n < |ws|
    requires j in ws[n].db.jobs && Active(ws[n].db.jobs[j].row.state)
    ensures HasCarrier(ws[n], j)
  {
    PromptRunIsSober(cfg, ws, steps, j);
    SoberRunLosesNoJob(cfg, ws, steps, n, j);
  }
}
