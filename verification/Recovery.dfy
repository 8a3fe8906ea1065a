/**
 A fresh delivery that finds nobody in its way: it claims, takes the lease, and its STARTED is
 accepted. This is how a job recovers from a dead worker, on the first redelivery.
 */
module Recovery {
  import opened Core
  import opened Domain
  import opened Keys
  import opened Records
  import opened System
  import opened Safety
  import opened Frames
  import opened WorkerSteps
  import opened OtherSteps
  import opened NoLoss

  // ----- the effects of an unhindered start, one by one -----

  lemma CheckDoneGoesOn(cfg: Settings, s: World, w: WorkerId, env: Env)
    requires w in s.workers && s.workers[w].pc == CheckDone && DoneKey(s.workers[w].job) !in s.kv
    ensures Next(cfg, s, Work(w, env)) == s.(workers := s.workers[w := s.workers[w].(pc := TakeClaim)])
  {}

  lemma ClaimGoesOn(cfg: Settings, s: World, w: WorkerId, env: Env)
    requires w in s.workers && s.workers[w].pc == TakeClaim && ClaimKey(s.workers[w].job) !in s.kv
    ensures var h := s.workers[w];
            Next(cfg, s, Work(w, env)) == s.(
              kv := KV.Take(s.kv, s.now, ClaimKey(h.job), Owner(w, h.delivery.attempt), cfg.leaseTtl),
              workers := s.workers[w := h.(pc := DrawToken, claimUntil := s.now + cfg.leaseTtl)])
  {}

  lemma DrawGoesOn(cfg: Settings, s: World, w: WorkerId, env: Env)
    requires w in s.workers && s.workers[w].pc == DrawToken
    ensures var h := s.workers[w];
            Next(cfg, s, Work(w, env)) == s.(
              issued := s.issued[h.job := Issued(s, h.job) + [h.delivery]],
              workers := s.workers[w := h.(pc := TakeLease, token := |Issued(s, h.job)| + 1)])
  {}

  lemma LeaseGoesOn(cfg: Settings, s: World, w: WorkerId, env: Env)
    requires w in s.workers && s.workers[w].pc == TakeLease && LeaseKey(s.workers[w].job) !in s.kv
    ensures var h := s.workers[w];
            Next(cfg, s, Work(w, env)) == s.(
              kv := KV.Take(s.kv, s.now, LeaseKey(h.job), Owner(w, h.token), cfg.leaseTtl),
              workers := s.workers[w := h.(pc := WriteStarted)])
  {}

  lemma StartGoesOn(cfg: Settings, s: World, w: WorkerId, env: Env)
    requires w in s.workers && s.workers[w].pc == WriteStarted
    requires JudgeIn(s.db, s.workers[w].job, WorkerWrite(s.workers[w], Started)) == Accepted
    ensures var h := s.workers[w];
            Next(cfg, s, Work(w, env)) == s.(
              db := Recorded(s.db, h.job, WorkerWrite(h, Started)),
              workers := s.workers[w := h.(pc := Execute)])
  {}

  lemma StartIsAccepted(row: JobRow, h: Handler)
    requires Active(row.state) && row.fence <= h.token
    ensures Judge(row, WorkerWrite(h, Started)) == Accepted
  {}

  // ----- after a death: the job is abandoned until the broker redelivers -----

  ghost predicate Unattended(s: World, j: JobId) {
    forall v :: v in s.workers ==> s.workers[v].job != j
  }

  ghost predicate ExpiresBy(s: World, key: Key, until: real) {
    key in s.kv ==> s.kv[key].expiresAt <= until
  }

  /** Nobody handles the job; what its last handler left behind is gone by the broker's deadline. */
  ghost predicate Abandoned(s: World, j: JobId, msg: nat, until: real) {
    && Unattended(s, j)
    && ExpiresBy(s, ClaimKey(j), until) && ExpiresBy(s, LeaseKey(j), until)
    && msg < |s.stream| && s.stream[msg].job == j
    && (Stored(s.stream[msg].fate) ==> DueAt(s.stream[msg].fate) == until)
  }

  /** No delivery of the job begins. */
  ghost predicate DeliversNone(s: World, step: Step, j: JobId) {
    step.Deliver? && step.msg < |s.stream| ==> s.stream[step.msg].job != j
  }

  lemma EffectElsewhere(s: World, h: Handler, a: Action, j: JobId, msg: nat)
    requires h.job != j && msg < |s.stream| && s.stream[msg].job == j
    requires h.delivery.msg < |s.stream| && s.stream[h.delivery.msg].job == h.job
    requires a.Look? || a.Take? || a.Drop? ==> a.key.job == h.job
    ensures var t := Effect(s, h, a);
            && msg < |t.stream| && t.stream[msg] == s.stream[msg]
            && (forall k: Key :: k.job == j ==> (k in t.kv <==> k in s.kv) && (k in s.kv ==> t.kv[k] == s.kv[k]))
            && (j in s.db.jobs ==> j in t.db.jobs && t.db.jobs[j] == s.db.jobs[j])
            && Issued(t, j) == Issued(s, j)
  {}

  /** A worker on another job does nothing to this one. */
  lemma WorkElsewhere(cfg: Settings, s: World, v: WorkerId, env: Env, j: JobId, msg: nat)
    requires v in s.workers && HandlerOk(cfg, s, v) && s.workers[v].job != j
    requires msg < |s.stream| && s.stream[msg].job == j
    ensures var t := WorkerStep(cfg, s, v, env);
            && msg < |t.stream| && t.stream[msg] == s.stream[msg]
            && (forall k: Key :: k.job == j ==> (k in t.kv <==> k in s.kv) && (k in s.kv ==> t.kv[k] == s.kv[k]))
            && (j in s.db.jobs ==> j in t.db.jobs && t.db.jobs[j] == s.db.jobs[j])
            && Issued(t, j) == Issued(s, j)
            && (v in t.workers ==> t.workers[v].job == s.workers[v].job)
  {
    var h := s.workers[v];
    ActionShape(cfg, v, h, env);
    EffectElsewhere(s, h, ActionAt(cfg, v, h, env), j, msg);
  }

  lemma AmbientWorkersElsewhere(cfg: Settings, s: World, step: Step, j: JobId, msg: nat)
    requires !step.Work? && DeliversNone(s, step, j) && msg < |s.stream|
    ensures var t := Next(cfg, s, step);
            forall v :: v in t.workers && t.workers[v].job == j ==>
              v in s.workers && (t.workers[v] == s.workers[v] || (step == Raise(v) && InsideTry(s.workers[v].pc)))
  {
    var t := Next(cfg, s, step);
    forall v | v in t.workers && t.workers[v].job == j
      ensures v in s.workers && (t.workers[v] == s.workers[v] || (step == Raise(v) && InsideTry(s.workers[v].pc)))
    {
      WorkersFrame(cfg, s, step, v);
    }
  }

  lemma AmbientLetterElsewhere(cfg: Settings, s: World, step: Step, j: JobId, msg: nat)
    requires !step.Work? && DeliversNone(s, step, j) && msg < |s.stream| && s.stream[msg].job == j
    ensures var t := Next(cfg, s, step);
            && msg < |t.stream| && t.stream[msg].job == j
            && (Stored(t.stream[msg].fate) ==> t.stream[msg].fate == s.stream[msg].fate)
  {
    if step.Listening? {
      ListenUnfolds(cfg, s, step.listener, step.inWindow);
      if step.listener in s.listeners { ListenerElsewhere(s, step.listener, step.inWindow, msg); }
    } else {
      LetterFrame(cfg, s, step, msg);
    }
  }

  lemma ListenerElsewhere(s: World, l: string, inWindow: bool, msg: nat)
    requires l in s.listeners && msg < |s.stream|
    ensures var t := ListenerStep(s, l, inWindow);
            && t.kv == s.kv && t.workers == s.workers && t.issued == s.issued
            && msg < |t.stream| && t.stream[msg].job == s.stream[msg].job
            && (Stored(t.stream[msg].fate) ==> t.stream[msg].fate == s.stream[msg].fate)
  {
    if s.listeners[l].msg < |s.stream| {
      match s.listeners[l].pc
      case Load =>
      case Copy =>
      case Mark =>
      case Remove =>
      case Settle =>
    }
  }

  lemma WorkAbandoned(cfg: Settings, s: World, v: WorkerId, env: Env, j: JobId, msg: nat, until: real)
    requires v in s.workers && HandlerOk(cfg, s, v) && Abandoned(s, j, msg, until)
    ensures Abandoned(WorkerStep(cfg, s, v, env), j, msg, until)
  {
    WorkElsewhere(cfg, s, v, env, j, msg);
    forall u | u in WorkerStep(cfg, s, v, env).workers ensures WorkerStep(cfg, s, v, env).workers[u].job != j {
      if u != v { WorkerMovesItself(cfg, s, v, env, u); }
    }
  }

  lemma AmbientAbandoned(cfg: Settings, s: World, step: Step, j: JobId, msg: nat, until: real)
    requires !step.Work? && Abandoned(s, j, msg, until) && DeliversNone(s, step, j)
    ensures Abandoned(Next(cfg, s, step), j, msg, until)
  {
    KeysFrame(cfg, s, step);
    AmbientWorkersElsewhere(cfg, s, step, j, msg);
    AmbientLetterElsewhere(cfg, s, step, j, msg);
  }

  lemma AbandonedKeeps(cfg: Settings, s: World, step: Step, j: JobId, msg: nat, until: real)
    requires step.Work? && step.worker in s.workers ==> HandlerOk(cfg, s, step.worker)
    requires Abandoned(s, j, msg, until) && DeliversNone(s, step, j)
    ensures Abandoned(Next(cfg, s, step), j, msg, until)
  {
    if step.Work? {
      WorkUnfolds(cfg, s, step.worker, step.env);
      if step.worker in s.workers { WorkAbandoned(cfg, s, step.worker, step.env, j, msg, until); }
    } else {
      AmbientAbandoned(cfg, s, step, j, msg, until);
    }
  }

  // ----- the redelivery, interleaved with everybody else -----

  /** How far a starting handler has come; 5 and more is past the start. */
  ghost function Stage(pc: Pc): nat {
    match pc
    case CheckDone => 0
    case TakeClaim => 1
    case DrawToken => 2
    case TakeLease => 3
    case WriteStarted => 4
    case _ => 5
  }

  /**
   * The handler of `w` is the job's only one, has `stage` effects of its start behind it, and nothing
   * stands in its way.
   */
  ghost predicate OnCourse(s: World, w: WorkerId, j: JobId, msg: nat, stage: nat) {
    && w in s.workers && s.workers[w].job == j && j in s.db.jobs
    && msg < |s.stream| && s.stream[msg].job == j
    && (forall v :: v in s.workers && v != w ==> s.workers[v].job != j)
    && Stage(s.workers[w].pc) == stage && stage < 5
    && (s.workers[w].pc == CheckDone || s.workers[w].pc == TakeClaim ==> ClaimKey(j) !in s.kv && LeaseKey(j) !in s.kv)
    && (s.workers[w].pc == DrawToken || s.workers[w].pc == TakeLease ==> LeaseKey(j) !in s.kv)
    && (s.workers[w].pc == TakeLease || s.workers[w].pc == WriteStarted ==> s.db.jobs[j].row.fence < s.workers[w].token)
  }

  /** The start ends well: a finished job is acked, an active one enters execution, a quarantined one is dropped. */
  ghost predicate Arrives(s: World, t: World, w: WorkerId, j: JobId) {
    && w in s.workers && w in t.workers
    && ((s.workers[w].pc == CheckDone && InState(s, j, Succeeded) && t.workers[w].pc == AckDuplicate)
        || (&& s.workers[w].pc == WriteStarted && j in s.db.jobs
            && JudgeIn(s.db, j, WorkerWrite(s.workers[w], Started))
               == (if Active(s.db.jobs[j].row.state) then Accepted else Illegal)
            && t.workers[w].pc == (if Active(s.db.jobs[j].row.state) then Execute else DropClaimObsolete)))
  }

  lemma CheckStaysOnCourse(cfg: Settings, s: World, w: WorkerId, env: Env, j: JobId, msg: nat)
    requires OnCourse(s, w, j, msg, 0) && (DoneKey(j) in s.kv ==> InState(s, j, Succeeded))
    ensures OnCourse(Next(cfg, s, Work(w, env)), w, j, msg, 1) || Arrives(s, Next(cfg, s, Work(w, env)), w, j)
  {
    if DoneKey(j) !in s.kv { CheckDoneGoesOn(cfg, s, w, env); }
  }

  lemma StartArrives(cfg: Settings, s: World, w: WorkerId, env: Env, j: JobId, msg: nat)
    requires OnCourse(s, w, j, msg, 4)
    ensures Arrives(s, Next(cfg, s, Work(w, env)), w, j)
  {
    var verdict := JudgeIn(s.db, j, WorkerWrite(s.workers[w], Started));
    assert verdict == if Active(s.db.jobs[j].row.state) then Accepted else Illegal;
    assert Onward(cfg, s.workers[w], Ruled(verdict)) == Some(Judged(Ruled(verdict), Execute));
    assert Next(cfg, s, Work(w, env)).workers[w].pc == Judged(Ruled(verdict), Execute);
  }

  lemma ClaimStaysOnCourse(cfg: Settings, s: World, w: WorkerId, env: Env, j: JobId, msg: nat)
    requires OnCourse(s, w, j, msg, 1)
    ensures OnCourse(Next(cfg, s, Work(w, env)), w, j, msg, 2)
  {
    ClaimGoesOn(cfg, s, w, env);
  }

  lemma DrawStaysOnCourse(cfg: Settings, s: World, w: WorkerId, env: Env, j: JobId, msg: nat)
    requires OnCourse(s, w, j, msg, 2) && s.db.jobs[j].row.fence <= |Issued(s, j)|
    ensures OnCourse(Next(cfg, s, Work(w, env)), w, j, msg, 3)
  {
    DrawGoesOn(cfg, s, w, env);
  }

  lemma LeaseStaysOnCourse(cfg: Settings, s: World, w: WorkerId, env: Env, j: JobId, msg: nat)
    requires OnCourse(s, w, j, msg, 3)
    ensures OnCourse(Next(cfg, s, Work(w, env)), w, j, msg, 4)
  {
    LeaseGoesOn(cfg, s, w, env);
  }

  lemma ActorStaysOnCourse(cfg: Settings, s: World, w: WorkerId, env: Env, j: JobId, msg: nat, stage: nat)
    requires OnCourse(s, w, j, msg, stage) && JobOk(cfg, s.db.jobs[j], Issued(s, j))
    requires DoneKey(j) in s.kv ==> InState(s, j, Succeeded)
    ensures OnCourse(Next(cfg, s, Work(w, env)), w, j, msg, stage + 1) || Arrives(s, Next(cfg, s, Work(w, env)), w, j)
  {
    FenceIsIssued(cfg, s.db.jobs[j], Issued(s, j));
    if stage == 0 {
      CheckStaysOnCourse(cfg, s, w, env, j, msg);
    } else if stage == 1 {
      ClaimStaysOnCourse(cfg, s, w, env, j, msg);
    } else if stage == 2 {
      DrawStaysOnCourse(cfg, s, w, env, j, msg);
    } else if stage == 3 {
      LeaseStaysOnCourse(cfg, s, w, env, j, msg);
    } else {
      StartArrives(cfg, s, w, env, j, msg);
    }
  }

  /** The fence of a row never exceeds the tokens drawn. */
  lemma FenceIsIssued(cfg: Settings, job: Job, issued: seq<Delivery>)
    requires JobOk(cfg, job, issued)
    ensures job.row.fence <= |issued|
  {
    TopTokenAttained(job.log);
    if job.row.fence != 0 {
      var i :| 0 <= i < |job.log| && job.log[i].token == Some(TopToken(job.log));
      assert EntryOk(cfg, job.log[i], issued);
    }
  }

  lemma OthersKeepCourse(cfg: Settings, s: World, v: WorkerId, env: Env, w: WorkerId, j: JobId, msg: nat, stage: nat)
    requires OnCourse(s, w, j, msg, stage) && v in s.workers && v != w && HandlerOk(cfg, s, v)
    ensures OnCourse(Next(cfg, s, Work(v, env)), w, j, msg, stage)
  {
    WorkElsewhere(cfg, s, v, env, j, msg);
    WorkerMovesItself(cfg, s, v, env, w);
    forall u | u in WorkerStep(cfg, s, v, env).workers && u != w
      ensures WorkerStep(cfg, s, v, env).workers[u].job != j
    {
      if u != v { WorkerMovesItself(cfg, s, v, env, u); }
    }
  }

  /** Unfenced writes leave the fence alone. */
  lemma UnfencedFence(db: Database, id: JobId, w: Write, j: JobId)
    requires w.token.None? && j in db.jobs
    ensures j in Recorded(db, id, w).jobs && Recorded(db, id, w).jobs[j].row.fence == db.jobs[j].row.fence
  {}

  lemma ListenerFence(s: World, l: string, inWindow: bool, j: JobId)
    requires l in s.listeners && j in s.db.jobs
    ensures var t := ListenerStep(s, l, inWindow); j in t.db.jobs && t.db.jobs[j].row.fence == s.db.jobs[j].row.fence
  {
    ListenerWrites(s, l, inWindow);
    var i := s.listeners[l].msg;
    if i < |s.stream| { UnfencedFence(s.db, s.stream[i].job, DeadLetterWrite(s.stream[i]), j); }
  }

  lemma AmbientFence(cfg: Settings, s: World, step: Step, j: JobId)
    requires !step.Work? && j in s.db.jobs
    ensures j in Next(cfg, s, step).db.jobs && Next(cfg, s, step).db.jobs[j].row.fence == s.db.jobs[j].row.fence
  {
    match step
    case SubmitJob(_, _, _) =>
    case ReplayJob(id) => UnfencedFence(s.db, id, ReplayWrite, j);
    case Listening(l, inWindow) =>
      ListenUnfolds(cfg, s, l, inWindow);
      if l in s.listeners { ListenerFence(s, l, inWindow, j); }
    case _ => TablesFrame(cfg, s, step);
  }

  lemma AmbientKeepsCourse(cfg: Settings, s: World, step: Step, w: WorkerId, j: JobId, msg: nat, stage: nat)
    requires OnCourse(s, w, j, msg, stage) && !step.Work? && DeliversNone(s, step, j) && step != Die(w)
    requires step != Raise(w)
    ensures OnCourse(Next(cfg, s, step), w, j, msg, stage)
  {
    KeysFrame(cfg, s, step);
    AmbientWorkersElsewhere(cfg, s, step, j, msg);
    AmbientLetterElsewhere(cfg, s, step, j, msg);
    AmbientFence(cfg, s, step, j);
    WorkerRemains(cfg, s, step, w);
  }

  lemma WorkerRemains(cfg: Settings, s: World, step: Step, w: WorkerId)
    requires w in s.workers && !step.Work? && step != Die(w) && step != Raise(w)
    ensures w in Next(cfg, s, step).workers && Next(cfg, s, step).workers[w] == s.workers[w]
  {
    WorkersFrame(cfg, s, step, w);
  }

  // ----- along whole paths -----

  /** From step a to step b nobody begins a delivery of the job. */
  ghost predicate NoDelivery(ws: seq<World>, steps: seq<Step>, a: nat, b: nat, j: JobId)
    requires |ws| == |steps| + 1 && b <= |steps|
  {
    forall n :: a <= n < b ==> DeliversNone(ws[n], steps[n], j)
  }

  ghost predicate NotKilled(steps: seq<Step>, a: nat, b: nat, w: WorkerId)
    requires b <= |steps|
  {
    forall n :: a <= n < b ==> steps[n] != Die(w) && steps[n] != Raise(w)
  }

  ghost predicate MovedBy(step: Step, w: WorkerId) {
    step.Work? && step.worker == w
  }

  /** How many of the steps from a to b are effects of `w`. */
  ghost function Moves(steps: seq<Step>, w: WorkerId, a: nat, b: nat): nat
    requires a <= b <= |steps|
  {
    if a == b then 0 else Moves(steps, w, a, b - 1) + if MovedBy(steps[b - 1], w) then 1 else 0
  }

  /** What the invariant says about the job and the actor of the n-th step. */
  ghost predicate Backed(cfg: Settings, ws: seq<World>, steps: seq<Step>, n: nat, j: JobId)
    requires |ws| == |steps| + 1 && n < |steps|
  {
    var s, step := ws[n], steps[n];
    && (j in s.db.jobs ==> JobOk(cfg, s.db.jobs[j], Issued(s, j)))
    && (DoneKey(j) in s.kv ==> InState(s, j, Succeeded))
    && (step.Work? && step.worker in s.workers ==> HandlerOk(cfg, s, step.worker))
  }

  ghost predicate AllBacked(cfg: Settings, ws: seq<World>, steps: seq<Step>, j: JobId)
    requires |ws| == |steps| + 1
  {
    forall i :: 0 <= i < |steps| ==> Backed(cfg, ws, steps, i, j)
  }

  lemma AbandonedLink(cfg: Settings, ws: seq<World>, steps: seq<Step>, n: nat, j: JobId, msg: nat, until: real)
    requires Path(cfg, ws, steps) && AllBacked(cfg, ws, steps, j) && n < |steps|
    requires DeliversNone(ws[n], steps[n], j) && Abandoned(ws[n], j, msg, until)
    ensures Abandoned(ws[n + 1], j, msg, until)
  {
    assert Linked(cfg, ws, steps, n) && Backed(cfg, ws, steps, n, j);
    AbandonedKeeps(cfg, ws[n], steps[n], j, msg, until);
  }

  /** Short of a delivery of the job, whatever happens leaves it abandoned. */
  lemma {:induction false} StaysAbandoned(
      cfg: Settings, ws: seq<World>, steps: seq<Step>, a: nat, b: nat, j: JobId, msg: nat, until: real)
    requires Path(cfg, ws, steps) && AllBacked(cfg, ws, steps, j) && a <= b < |ws|
    requires NoDelivery(ws, steps, a, b, j) && Abandoned(ws[a], j, msg, until)
    ensures Abandoned(ws[b], j, msg, until)
  {
    if a < b {
      StaysAbandoned(cfg, ws, steps, a, b - 1, j, msg, until);
      AbandonedLink(cfg, ws, steps, b - 1, j, msg, until);
    }
  }

  /** When the broker redelivers, the deadline has passed and the way is free. */
  lemma RedeliveryIsOnCourse(cfg: Settings, s: World, w: WorkerId, j: JobId, msg: nat, until: real)
    requires Inv(cfg, s) && Abandoned(s, j, msg, until) && CanDeliver(cfg, s, w, msg) && !s.stream[msg].payload.poison
    ensures OnCourse(Next(cfg, s, Deliver(w, msg)), w, j, msg, 0)
  {
    assert MessageOk(cfg, s, msg);
    assert until <= s.now;
    assert ClaimKey(j) in s.kv ==> EntryAlive(s, ClaimKey(j));
    assert LeaseKey(j) in s.kv ==> EntryAlive(s, LeaseKey(j));
    DeliveredIsOnCourse(cfg, s, w, j, msg);
  }

  lemma DeliveredIsOnCourse(cfg: Settings, s: World, w: WorkerId, j: JobId, msg: nat)
    requires CanDeliver(cfg, s, w, msg) && !s.stream[msg].payload.poison && s.stream[msg].job == j && j in s.db.jobs
    requires Unattended(s, j) && ClaimKey(j) !in s.kv && LeaseKey(j) !in s.kv
    ensures OnCourse(Next(cfg, s, Deliver(w, msg)), w, j, msg, 0)
  {}

  /** The n-th of these steps is the one that ends the start of `w`, and ends it well. */
  ghost predicate ArrivesAt(ws: seq<World>, steps: seq<Step>, n: nat, w: WorkerId, j: JobId)
    requires |ws| == |steps| + 1
  {
    n < |steps| && MovedBy(steps[n], w) && Arrives(ws[n], ws[n + 1], w, j)
  }

  lemma IdleWork(cfg: Settings, s: World, v: WorkerId, env: Env)
    requires v !in s.workers
    ensures Next(cfg, s, Work(v, env)) == s
  {}

  lemma WorkCourse(cfg: Settings, s: World, v: WorkerId, env: Env, w: WorkerId, j: JobId, msg: nat, stage: nat)
    requires OnCourse(s, w, j, msg, stage) && JobOk(cfg, s.db.jobs[j], Issued(s, j))
    requires (v in s.workers ==> HandlerOk(cfg, s, v)) && (DoneKey(j) in s.kv ==> InState(s, j, Succeeded))
    ensures || OnCourse(Next(cfg, s, Work(v, env)), w, j, msg, if v == w then stage + 1 else stage)
            || (v == w && Arrives(s, Next(cfg, s, Work(w, env)), w, j))
  {
    if v == w {
      ActorStaysOnCourse(cfg, s, w, env, j, msg, stage);
    } else if v in s.workers {
      OthersKeepCourse(cfg, s, v, env, w, j, msg, stage);
    } else {
      IdleWork(cfg, s, v, env);
    }
  }

  lemma StepCourse(cfg: Settings, s: World, step: Step, w: WorkerId, j: JobId, msg: nat, stage: nat)
    requires OnCourse(s, w, j, msg, stage) && DeliversNone(s, step, j) && step != Die(w) && step != Raise(w)
    requires JobOk(cfg, s.db.jobs[j], Issued(s, j)) && (DoneKey(j) in s.kv ==> InState(s, j, Succeeded))
    requires step.Work? && step.worker in s.workers ==> HandlerOk(cfg, s, step.worker)
    ensures || OnCourse(Next(cfg, s, step), w, j, msg, if MovedBy(step, w) then stage + 1 else stage)
            || (MovedBy(step, w) && Arrives(s, Next(cfg, s, step), w, j))
  {
    if step.Work? {
      WorkCourse(cfg, s, step.worker, step.env, w, j, msg, stage);
    } else {
      AmbientKeepsCourse(cfg, s, step, w, j, msg, stage);
    }
  }

  lemma BackedAlong(cfg: Settings, ws: seq<World>, steps: seq<Step>, n: nat, j: JobId)
    requires Path(cfg, ws, steps) && n < |steps| && Inv(cfg, ws[0])
    ensures Backed(cfg, ws, steps, n, j)
  {
    PathKeeps(cfg, ws, steps, n);
    var s := ws[n];
    if j in s.db.jobs { assert JobOk(cfg, s.db.jobs[j], DrawnFrom(s.issued, j)); }
    if DoneKey(j) in s.kv { assert EntryAlive(s, DoneKey(j)); }
  }

  /** From step a to step b the start of w has ended well, at `arrival`, or has come as far as its effects. */
  ghost predicate Held(
      ws: seq<World>, steps: seq<Step>, a: nat, b: nat, w: WorkerId, j: JobId, msg: nat, arrival: Option<nat>)
    requires |ws| == |steps| + 1 && a <= b < |ws|
  {
    if arrival.Some? then a <= arrival.value < b && ArrivesAt(ws, steps, arrival.value, w, j)
    else OnCourse(ws[b], w, j, msg, Moves(steps, w, a, b))
  }

  /** A handler on course stays on it, effect by effect, until its start ends well. */
  lemma {:induction false} CourseIsHeld(
      cfg: Settings, ws: seq<World>, steps: seq<Step>, a: nat, b: nat, w: WorkerId, j: JobId, msg: nat)
      returns (arrival: Option<nat>)
    requires Path(cfg, ws, steps) && AllBacked(cfg, ws, steps, j) && a <= b < |ws|
    requires NoDelivery(ws, steps, a, b, j) && NotKilled(steps, a, b, w) && OnCourse(ws[a], w, j, msg, 0)
    ensures Held(ws, steps, a, b, w, j, msg, arrival)
  {
    arrival := None;
    if a < b {
      arrival := CourseIsHeld(cfg, ws, steps, a, b - 1, w, j, msg);
      if arrival.None? {
        arrival := CourseLink(cfg, ws, steps, a, b - 1, w, j, msg);
      } else {
        HeldStays(ws, steps, a, b - 1, w, j, msg, arrival);
      }
    }
  }

  lemma HeldStays(
      ws: seq<World>, steps: seq<Step>, a: nat, n: nat, w: WorkerId, j: JobId, msg: nat, arrival: Option<nat>)
    requires |ws| == |steps| + 1 && a <= n < |steps| && arrival.Some? && Held(ws, steps, a, n, w, j, msg, arrival)
    ensures Held(ws, steps, a, n + 1, w, j, msg, arrival)
  {}

  lemma CourseLink(
      cfg: Settings, ws: seq<World>, steps: seq<Step>, a: nat, n: nat, w: WorkerId, j: JobId, msg: nat)
      returns (arrival: Option<nat>)
    requires Path(cfg, ws, steps) && AllBacked(cfg, ws, steps, j) && a <= n < |steps|
    requires DeliversNone(ws[n], steps[n], j) && steps[n] != Die(w) && steps[n] != Raise(w)
    requires Held(ws, steps, a, n, w, j, msg, None)
    ensures Held(ws, steps, a, n + 1, w, j, msg, arrival)
  {
    CourseStep(cfg, ws, steps, n, w, j, msg, Moves(steps, w, a, n));
    arrival := if ArrivesAt(ws, steps, n, w, j) then Some(n) else None;
  }

  lemma CourseStep(cfg: Settings, ws: seq<World>, steps: seq<Step>, n: nat, w: WorkerId, j: JobId, msg: nat, stage: nat)
    requires |ws| == |steps| + 1 && n < |steps| && Linked(cfg, ws, steps, n) && Backed(cfg, ws, steps, n, j)
    requires DeliversNone(ws[n], steps[n], j) && steps[n] != Die(w) && steps[n] != Raise(w)
    requires OnCourse(ws[n], w, j, msg, stage)
    ensures || OnCourse(ws[n + 1], w, j, msg, if MovedBy(steps[n], w) then stage + 1 else stage)
            || ArrivesAt(ws, steps, n, w, j)
  {
    StepCourse(cfg, ws[n], steps[n], w, j, msg, stage);
  }

  /** From step a on, step d is the one delivery of the job, to w, who is not killed after it. */
  ghost predicate RedeliversAt(
      cfg: Settings, ws: seq<World>, steps: seq<Step>, a: nat, d: nat, w: WorkerId, j: JobId, msg: nat)
    requires |ws| == |steps| + 1 && d < |steps|
  {
    && steps[d] == Deliver(w, msg) && CanDeliver(cfg, ws[d], w, msg) && !ws[d].stream[msg].payload.poison
    && NoDelivery(ws, steps, a, d, j) && NoDelivery(ws, steps, d + 1, |steps|, j)
    && NotKilled(steps, d + 1, |steps|, w)
  }

  /** The start of w after step d has come as far as its effects, or has ended well. */
  ghost predicate Recovers(ws: seq<World>, steps: seq<Step>, d: nat, w: WorkerId, j: JobId, msg: nat)
    requires |ws| == |steps| + 1 && d < |steps|
  {
    var moves := Moves(steps, w, d + 1, |steps|);
    && (|| OnCourse(Last(ws), w, j, msg, moves)
        || exists n :: d < n < |steps| && ArrivesAt(ws, steps, n, w, j))
    && (5 <= moves ==> exists n :: d < n < |steps| && ArrivesAt(ws, steps, n, w, j))
  }

  /**
   An abandoned job recovers with the first redelivery. Whatever happens before it short of a delivery
   of the job, and after it short of killing the new handler, the new handler is never turned away: it
   gets the claim and the lease, and its start ends, with its fifth effect at the latest, in an
   accepted STARTED if the job is still QUEUED or RUNNING at that moment.
   */
  lemma AbandonedRecovers(
      cfg: Settings, ws: seq<World>, steps: seq<Step>, a: nat, d: nat, w: WorkerId, j: JobId, msg: nat, until: real)
    requires Path(cfg, ws, steps) && a <= d < |steps| && Reachable(cfg, ws[0]) && Abandoned(ws[a], j, msg, until)
    requires RedeliversAt(cfg, ws, steps, a, d, w, j, msg)
    ensures Recovers(ws, steps, d, w, j, msg)
  {
    RedeliveryAfterDeath(cfg, ws, steps, a, d, w, j, msg, until);
    CourseEnds(cfg, ws, steps, d + 1, w, j, msg);
  }

  lemma RedeliveryAfterDeath(
      cfg: Settings, ws: seq<World>, steps: seq<Step>, a: nat, d: nat, w: WorkerId, j: JobId, msg: nat, until: real)
    requires Path(cfg, ws, steps) && a <= d < |steps| && Reachable(cfg, ws[0]) && Abandoned(ws[a], j, msg, until)
    requires RedeliversAt(cfg, ws, steps, a, d, w, j, msg)
    ensures OnCourse(ws[d + 1], w, j, msg, 0) && AllBacked(cfg, ws, steps, j)
  {
    ReachableIsSafe(cfg, ws[0]);
    EverywhereBacked(cfg, ws, steps, j);
    StaysAbandoned(cfg, ws, steps, a, d, j, msg, until);
    RedeliveryLink(cfg, ws, steps, d, w, j, msg, until);
  }

  lemma EverywhereBacked(cfg: Settings, ws: seq<World>, steps: seq<Step>, j: JobId)
    requires Path(cfg, ws, steps) && Inv(cfg, ws[0])
    ensures AllBacked(cfg, ws, steps, j)
  {
    forall i | 0 <= i < |steps| ensures Backed(cfg, ws, steps, i, j) { BackedAlong(cfg, ws, steps, i, j); }
  }

  /** With its fifth effect at the latest, a start that is not disturbed has ended well. */
  lemma CourseEnds(cfg: Settings, ws: seq<World>, steps: seq<Step>, a: nat, w: WorkerId, j: JobId, msg: nat)
    requires Path(cfg, ws, steps) && AllBacked(cfg, ws, steps, j) && a <= |steps| && OnCourse(ws[a], w, j, msg, 0)
    requires NoDelivery(ws, steps, a, |steps|, j) && NotKilled(steps, a, |steps|, w)
    ensures var moves := Moves(steps, w, a, |steps|);
            && (|| OnCourse(Last(ws), w, j, msg, moves)
                || exists n :: a <= n < |steps| && ArrivesAt(ws, steps, n, w, j))
            && (5 <= moves ==> exists n :: a <= n < |steps| && ArrivesAt(ws, steps, n, w, j))
  {
    var arrival := CourseIsHeld(cfg, ws, steps, a, |steps|, w, j, msg);
  }

  lemma RedeliveryLink(
      cfg: Settings, ws: seq<World>, steps: seq<Step>, d: nat, w: WorkerId, j: JobId, msg: nat, until: real)
    requires Path(cfg, ws, steps) && Inv(cfg, ws[0]) && d < |steps| && steps[d] == Deliver(w, msg)
    requires CanDeliver(cfg, ws[d], w, msg) && !ws[d].stream[msg].payload.poison && Abandoned(ws[d], j, msg, until)
    ensures OnCourse(ws[d + 1], w, j, msg, 0)
  {
    PathKeeps(cfg, ws, steps, d);
    RedeliveryIsOnCourse(cfg, ws[d], w, j, msg, until);
    assert Linked(cfg, ws, steps, d);
  }
}
