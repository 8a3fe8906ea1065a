/**
 No job is lost. A QUEUED or RUNNING job needs a carrier: an outbox row that the broker has not seen,
 or a message still stored whose advisory, if raised, is still to be settled. The carrier that counts
 is the one born of the job's latest submission or replay. An unpublished row whose message the broker
 already has does not count: inside the dedupe window its publication will be dropped.
 */
module NoLoss {
  import opened Core
  import opened Domain
  import opened Keys
  import opened Records
  import opened System
  import opened Safety
  import opened Frames
  import opened WorkerSteps
  import opened OtherSteps
  import opened Guarantees

  /** The outbox row of the job's latest submission or replay, or -1. */
  function LatestRow(outbox: seq<OutboxRow>, j: JobId): int {
    if outbox == [] then -1
    else if outbox[|outbox| - 1].job == j then |outbox| - 1
    else LatestRow(outbox[..|outbox| - 1], j)
  }

  lemma {:induction false} LatestIsLatest(outbox: seq<OutboxRow>, j: JobId)
    ensures -1 <= LatestRow(outbox, j) < |outbox|
    ensures LatestRow(outbox, j) >= 0 ==> outbox[LatestRow(outbox, j)].job == j
    ensures forall r :: LatestRow(outbox, j) < r < |outbox| ==> outbox[r].job != j
  {
    if outbox != [] { LatestIsLatest(outbox[..|outbox| - 1], j); }
  }

  /** The job no longer depends on message i: it is at rest, or a later replay superseded the message. */
  ghost predicate Obsolete(s: World, i: nat) {
    && i < |s.stream| && s.stream[i].job in s.db.jobs
    && (Active(s.db.jobs[s.stream[i].job].row.state) ==> s.stream[i].row != LatestRow(s.db.outbox, s.stream[i].job))
  }

  /** The message can still make its job move. */
  ghost predicate Alive(s: World, i: nat) {
    i < |s.stream| && Stored(s.stream[i].fate) && s.stream[i].advisory != Advisory.Settled
  }

  /** The row is still to be published, and its publication will be stored. */
  ghost predicate Waits(s: World, r: nat) {
    r < |s.db.outbox| && !s.db.outbox[r].published && !Known(s.stream, r)
  }

  /** Some message of the row other than message `but` is alive. */
  ghost predicate AliveBut(s: World, r: nat, but: int) {
    exists i :: 0 <= i < |s.stream| && i != but && s.stream[i].row == r && Alive(s, i)
  }

  ghost predicate HasCarrier(s: World, j: JobId) {
    var r := LatestRow(s.db.outbox, j);
    0 <= r < |s.db.outbox| && (Waits(s, r) || AliveBut(s, r, -1))
  }

  // ----- why a job can be lost, and that there is no other reason -----

  /**
   The one decision of a handler that can lose a job: its COMPLETED is judged illegal in QUEUED,
   which is taken to mean that the delivery is obsolete, although its message is the job's carrier.
   */
  ghost predicate Misjudges(s: World, w: WorkerId) {
    && w in s.workers && s.workers[w].pc == WriteCompleted && s.workers[w].delivery.msg < |s.stream|
    && InState(s, s.workers[w].job, Queued)
    && s.stream[s.workers[w].delivery.msg].row == LatestRow(s.db.outbox, s.workers[w].job)
  }

  /** Message i belongs to the job. */
  ghost predicate Concerns(s: World, i: nat, j: JobId) {
    i < |s.stream| && s.stream[i].job == j
  }

  /** As far as the job is concerned, no quarantine error is swallowed and no handler misjudges. */
  ghost predicate Sober(s: World, step: Step, j: JobId) {
    && (step.Swallow? && step.listener in s.listeners ==> !Concerns(s, s.listeners[step.listener].msg, j))
    && (step.Work? && step.worker in s.workers && s.workers[step.worker].job == j ==> !Misjudges(s, step.worker))
  }

  ghost predicate SoberRun(ws: seq<World>, steps: seq<Step>, j: JobId)
    requires |ws| == |steps| + 1
  {
    forall n :: 0 <= n < |steps| ==> Sober(ws[n], steps[n], j)
  }

  ghost predicate Obsoleting(pc: Pc) {
    pc == DropClaimObsolete || pc == TermObsolete
  }

  ghost predicate HandlersSpare(s: World, j: JobId) {
    forall w :: w in s.workers && s.workers[w].job == j && Obsoleting(s.workers[w].pc) ==>
      Obsolete(s, s.workers[w].delivery.msg)
  }

  ghost predicate ListenerSpares(s: World, q: Quarantine) {
    && (q.pc == Remove ==> Obsolete(s, q.msg))
    && (q.pc == Settle ==> q.msg < |s.stream| && !Stored(s.stream[q.msg].fate))
  }

  ghost predicate ListenersSpare(s: World, j: JobId) {
    forall l :: l in s.listeners && Concerns(s, s.listeners[l].msg, j) ==> ListenerSpares(s, s.listeners[l])
  }

  ghost predicate GoneIsObsolete(s: World, j: JobId) {
    forall i :: 0 <= i < |s.stream| && s.stream[i].job == j
                && (!Stored(s.stream[i].fate) || s.stream[i].advisory == Advisory.Settled) ==>
      !Stored(s.stream[i].fate) && Obsolete(s, i)
  }

  /** Only messages the job no longer depends on are, or are about to be, removed. */
  ghost predicate Spared(s: World, j: JobId) {
    HandlersSpare(s, j) && ListenersSpare(s, j) && GoneIsObsolete(s, j)
  }

  // ----- obsolete once, obsolete forever -----

  lemma LatestGrows(a: seq<OutboxRow>, b: seq<OutboxRow>, j: JobId)
    requires OutboxGrows(a, b)
    ensures LatestRow(a, j) <= LatestRow(b, j)
  {
    LatestIsLatest(a, j);
    LatestIsLatest(b, j);
  }

  /** A job at rest stays at rest, or was replayed and has a new latest row. */
  ghost predicate RestsOrReplayed(s: World, t: World, j: JobId) {
    j in s.db.jobs && !Active(s.db.jobs[j].row.state) ==>
      j in t.db.jobs && (Active(t.db.jobs[j].row.state) ==> LatestRow(t.db.outbox, j) >= |s.db.outbox|)
  }

  lemma WriteRests(row: JobRow, w: Write)
    requires !Active(row.state) && row.state != JobState.Submitted && w.event != Replayed
    ensures Judge(row, w) == Illegal
  {}

  /** No effect of a worker touches a job at rest. */
  lemma EffectSparesResting(s: World, h: Handler, a: Action, j: JobId)
    requires j in s.db.jobs && !Active(s.db.jobs[j].row.state) && s.db.jobs[j].row.state != JobState.Submitted
    requires a.Commit? ==> a.write.event != Replayed
    ensures j in Effect(s, h, a).db.jobs && Effect(s, h, a).db.jobs[j] == s.db.jobs[j]
  {
    if a.Commit? { WriteRests(s.db.jobs[j].row, a.write); }
  }

  lemma EffectRests(cfg: Settings, s: World, w: WorkerId, env: Env, j: JobId)
    requires w in s.workers && JobsOk(cfg, s)
    ensures RestsOrReplayed(s, WorkerStep(cfg, s, w, env), j)
  {
    if j in s.db.jobs && !Active(s.db.jobs[j].row.state) {
      assert JobOk(cfg, s.db.jobs[j], DrawnFrom(s.issued, j));
      WorkerSparesResting(cfg, s, w, env, j);
    }
  }

  lemma WorkerSparesResting(cfg: Settings, s: World, w: WorkerId, env: Env, j: JobId)
    requires w in s.workers
    requires j in s.db.jobs && !Active(s.db.jobs[j].row.state) && s.db.jobs[j].row.state != JobState.Submitted
    ensures var t := WorkerStep(cfg, s, w, env); j in t.db.jobs && t.db.jobs[j] == s.db.jobs[j]
  {
    var h := s.workers[w];
    ActionShape(cfg, w, h, env);
    EffectSparesResting(s, h, ActionAt(cfg, w, h, env), j);
  }

  lemma MarkRests(cfg: Settings, s: World, m: Message, j: JobId)
    requires JobsOk(cfg, s) && j in s.db.jobs && !Active(s.db.jobs[j].row.state)
    ensures Recorded(s.db, m.job, DeadLetterWrite(m)).jobs[j] == s.db.jobs[j]
  {
    assert JobOk(cfg, s.db.jobs[j], DrawnFrom(s.issued, j));
    WriteRests(s.db.jobs[j].row, DeadLetterWrite(m));
  }

  lemma ListenerWrites(s: World, l: string, inWindow: bool)
    requires l in s.listeners
    ensures var t := ListenerStep(s, l, inWindow); var i := s.listeners[l].msg;
            t.db == s.db
            || (i < |s.stream| && t.db == Recorded(s.db, s.stream[i].job, DeadLetterWrite(s.stream[i])))
  {
    if s.listeners[l].msg < |s.stream| {
      match s.listeners[l].pc
      case Load =>
      case Copy =>
      case Mark =>
      case Remove =>
      case Settle =>
    }
  }

  lemma ListenerRests(cfg: Settings, s: World, l: string, inWindow: bool, j: JobId)
    requires l in s.listeners && JobsOk(cfg, s)
    ensures RestsOrReplayed(s, ListenerStep(s, l, inWindow), j)
  {
    ListenerWrites(s, l, inWindow);
    var t := ListenerStep(s, l, inWindow);
    if t.db != s.db && j in s.db.jobs && !Active(s.db.jobs[j].row.state) {
      MarkRests(cfg, s, s.stream[s.listeners[l].msg], j);
    }
  }

  lemma SubmitRests(s: World, id: JobId, key: string, payload: Payload, j: JobId)
    ensures RestsOrReplayed(s, s.(db := Inserted(s.db, id, key, payload)), j)
  {}

  /** A step that leaves the rows of the jobs alone. */
  lemma StillRests(s: World, t: World, j: JobId)
    requires t.db.jobs == s.db.jobs
    ensures RestsOrReplayed(s, t, j)
  {}

  lemma StepRests(cfg: Settings, s: World, step: Step, j: JobId)
    requires JobsOk(cfg, s)
    ensures RestsOrReplayed(s, Next(cfg, s, step), j)
  {
    match step
    case Work(w, env) =>
      WorkUnfolds(cfg, s, w, env);
      if w in s.workers { EffectRests(cfg, s, w, env, j); }
    case Listening(l, inWindow) =>
      ListenUnfolds(cfg, s, l, inWindow);
      if l in s.listeners { ListenerRests(cfg, s, l, inWindow, j); }
    case ReplayJob(id) => ReplayRests(s, id, j);
    case SubmitJob(id, key, payload) => SubmitRests(s, id, key, payload, j);
    case _ =>
      TablesFrame(cfg, s, step);
      StillRests(s, Next(cfg, s, step), j);
  }

  lemma ReplayRests(s: World, id: JobId, j: JobId)
    ensures RestsOrReplayed(s, s.(db := Reinjected(s.db, id)), j)
  {}

  lemma ObsoleteStays(cfg: Settings, s: World, step: Step, i: nat)
    requires JobsOk(cfg, s) && Obsolete(s, i) && s.stream[i].row < |s.db.outbox|
    requires s.db.outbox[s.stream[i].row].job == s.stream[i].job
    requires Grows(s, Next(cfg, s, step))
    ensures Obsolete(Next(cfg, s, step), i)
  {
    var t := Next(cfg, s, step);
    var j := s.stream[i].job;
    assert SameLetter(s.stream[i], t.stream[i]);
    StepRests(cfg, s, step, j);
    LatestIsLatest(s.db.outbox, j);
    LatestGrows(s.db.outbox, t.db.outbox, j);
  }

  // ----- a sober step spares what its job depends on -----

  /** An illegal STARTED or COMPLETED, unless misjudged, is proof that the delivery is obsolete. */
  lemma IllegalIsObsolete(cfg: Settings, s: World, w: WorkerId)
    requires w in s.workers && HandlerOk(cfg, s, w) && !Misjudges(s, w)
    requires var h := s.workers[w];
             && (h.pc == WriteStarted || h.pc == WriteCompleted)
             && JudgeIn(s.db, h.job, WorkerWrite(h, EventAt(h.pc).value)) == Illegal
    ensures Obsolete(s, s.workers[w].delivery.msg)
  {}

  lemma RestIsObsolete(cfg: Settings, s: World, w: WorkerId)
    requires w in s.workers && HandlerOk(cfg, s, w)
    requires AfterSuccess(s.workers[w].pc) || s.workers[w].pc == TermFailed
    ensures Obsolete(s, s.workers[w].delivery.msg)
  {}

  /** Who removes a message: the handler of one of its deliveries, or its quarantine. */
  ghost predicate Remover(s: World, step: Step, i: nat) {
    || (&& step.Work? && step.worker in s.workers && s.workers[step.worker].delivery.msg == i
        && var pc := s.workers[step.worker].pc;
           pc == AckDuplicate || pc == AckDone || pc == TermFailed || pc == TermObsolete)
    || (step.Listening? && step.listener in s.listeners && s.listeners[step.listener] == Quarantine(i, Remove))
  }

  lemma WorkerRemoves(cfg: Settings, s: World, w: WorkerId, env: Env, i: nat)
    requires w in s.workers && i < |s.stream| && Stored(s.stream[i].fate)
    ensures var t := WorkerStep(cfg, s, w, env);
            && i < |t.stream| && t.stream[i].advisory == s.stream[i].advisory
            && (!Stored(t.stream[i].fate) ==> Remover(s, Work(w, env), i))
  {
    var h := s.workers[w];
    RemovesShape(cfg, w, h, env);
    EffectRemoves(s, h, ActionAt(cfg, w, h, env), i);
  }

  lemma EffectRemoves(s: World, h: Handler, a: Action, i: nat)
    requires i < |s.stream| && Stored(s.stream[i].fate)
    ensures var t := Effect(s, h, a);
            && i < |t.stream| && t.stream[i].advisory == s.stream[i].advisory
            && (!Stored(t.stream[i].fate) ==> h.delivery.msg == i && (a.Ack? || a.Term?))
  {}

  lemma RemovesShape(cfg: Settings, w: WorkerId, h: Handler, env: Env)
    ensures var a := ActionAt(cfg, w, h, env);
            a.Ack? || a.Term? ==>
              h.pc == AckDuplicate || h.pc == AckDone || h.pc == TermFailed || h.pc == TermObsolete
  {}

  lemma ListenerRemoves(s: World, l: string, inWindow: bool, i: nat)
    requires l in s.listeners && i < |s.stream|
    ensures var t := ListenerStep(s, l, inWindow);
            && i < |t.stream|
            && (t.stream[i].advisory != s.stream[i].advisory ==> s.listeners[l] == Quarantine(i, Settle))
            && (Stored(s.stream[i].fate) && !Stored(t.stream[i].fate) ==> s.listeners[l] == Quarantine(i, Remove))
  {
    if s.listeners[l].msg < |s.stream| {
      match s.listeners[l].pc
      case Load =>
      case Copy =>
      case Mark =>
      case Remove =>
      case Settle =>
    }
  }

  /** How a message that was fine before a step can be gone, or its advisory settled, after it. */
  lemma NewlyGone(cfg: Settings, s: World, step: Step, i: nat)
    requires i < |s.stream| && Stored(s.stream[i].fate) && s.stream[i].advisory != Advisory.Settled
    ensures var t := Next(cfg, s, step);
            && i < |t.stream|
            && (!Stored(t.stream[i].fate) ==> Remover(s, step, i))
            && (t.stream[i].advisory == Advisory.Settled ==>
                  && step.Listening? && step.listener in s.listeners
                  && s.listeners[step.listener] == Quarantine(i, Settle))
  {
    match step
    case Work(w, env) => if w in s.workers { WorkerRemoves(cfg, s, w, env, i); }
    case Listening(l, inWindow) => if l in s.listeners { ListenerRemoves(s, l, inWindow, i); }
    case _ => LetterFrame(cfg, s, step, i);
  }

  lemma RemoverIsRight(cfg: Settings, s: World, step: Step, i: nat, j: JobId)
    requires HandlersOk(cfg, s) && Spared(s, j) && Remover(s, step, i) && Concerns(s, i, j)
    ensures Obsolete(s, i)
  {
    if step.Work? {
      var w := step.worker;
      assert HandlerOk(cfg, s, w);
      if s.workers[w].pc != TermObsolete { RestIsObsolete(cfg, s, w); }
    } else {
      assert ListenerSpares(s, s.listeners[step.listener]);
    }
  }

  lemma GoneStaysObsolete(cfg: Settings, s: World, step: Step, i: nat, j: JobId)
    requires JobsOk(cfg, s) && MessagesOk(cfg, s) && HandlersOk(cfg, s) && Spared(s, j)
    requires Grows(s, Next(cfg, s, step)) && Concerns(Next(cfg, s, step), i, j)
    requires var m := Next(cfg, s, step).stream[i]; !Stored(m.fate) || m.advisory == Advisory.Settled
    ensures !Stored(Next(cfg, s, step).stream[i].fate) && Obsolete(Next(cfg, s, step), i)
  {
    var t := Next(cfg, s, step);
    StreamLength(cfg, s, step);
    if i < |s.stream| {
      assert MessageOk(cfg, s, i) && SameLetter(s.stream[i], t.stream[i]);
      if Stored(s.stream[i].fate) && s.stream[i].advisory != Advisory.Settled {
        NewlyGone(cfg, s, step, i);
        assert t.stream[i].advisory == Advisory.Settled ==> ListenerSpares(s, s.listeners[step.listener]);
        RemoverIsRight(cfg, s, step, i, j);
      }
      ObsoleteStays(cfg, s, step, i);
    } else {
      NewLetterIsStored(cfg, s, step);
    }
  }

  lemma NewLetterIsStored(cfg: Settings, s: World, step: Step)
    requires |Next(cfg, s, step).stream| == |s.stream| + 1 && step.RelayWork? && step.relay in s.relays
    ensures var m := Next(cfg, s, step).stream[|s.stream|]; Stored(m.fate) && m.advisory == NotRaised
  {}

  lemma ActorSpares(cfg: Settings, s: World, w: WorkerId, env: Env)
    requires w in s.workers && HandlerOk(cfg, s, w) && !Misjudges(s, w) && HandlersSpare(s, s.workers[w].job)
    ensures var t := WorkerStep(cfg, s, w, env);
            w in t.workers && Obsoleting(t.workers[w].pc) ==>
              t.workers[w].delivery == s.workers[w].delivery && Obsolete(s, s.workers[w].delivery.msg)
  {
    var h := s.workers[w];
    var a := ActionAt(cfg, w, h, env);
    var next := Onward(cfg, h, Ask(s, h, a, env));
    ObsoleteComesFrom(cfg, h, Ask(s, h, a, env));
    if next == Some(DropClaimObsolete) {
      ActionShape(cfg, w, h, env);
      IllegalIsObsolete(cfg, s, w);
    }
    assert Learn(s, h, a, env).delivery == h.delivery;
  }

  lemma ObsoleteComesFrom(cfg: Settings, h: Handler, reply: Reply)
    ensures Onward(cfg, h, reply) == Some(DropClaimObsolete) ==>
              (h.pc == WriteStarted || h.pc == WriteCompleted) && reply == Ruled(Illegal)
    ensures Onward(cfg, h, reply) == Some(TermObsolete) ==> h.pc == DropClaimObsolete
  {}

  /** A handler that stands at an obsolete point after the step found its message obsolete before it. */
  lemma WasObsolete(cfg: Settings, s: World, step: Step, w: WorkerId, j: JobId)
    requires HandlersOk(cfg, s) && HandlersSpare(s, j) && Sober(s, step, j)
    requires var t := Next(cfg, s, step); w in t.workers && t.workers[w].job == j && Obsoleting(t.workers[w].pc)
    ensures Obsolete(s, Next(cfg, s, step).workers[w].delivery.msg)
  {
    if step.Work? && step.worker == w && w in s.workers {
      WorkUnfolds(cfg, s, w, step.env);
      WorkerKeepsJob(cfg, s, w, step.env);
      assert HandlerOk(cfg, s, w);
      ActorSpares(cfg, s, w, step.env);
    } else {
      OthersStand(cfg, s, step, w);
    }
  }

  /** A handler stays with its job. */
  lemma WorkerKeepsJob(cfg: Settings, s: World, w: WorkerId, env: Env)
    requires w in s.workers
    ensures var t := WorkerStep(cfg, s, w, env); w in t.workers ==> t.workers[w].job == s.workers[w].job
  {
    LearnKeeps(s, s.workers[w], ActionAt(cfg, w, s.workers[w], env), env);
  }

  lemma OthersStand(cfg: Settings, s: World, step: Step, w: WorkerId)
    requires !(step.Work? && step.worker == w)
    requires var t := Next(cfg, s, step);
             w in t.workers && Obsoleting(t.workers[w].pc)
    ensures w in s.workers && s.workers[w] == Next(cfg, s, step).workers[w]
  {
    if step.Work? {
      WorkUnfolds(cfg, s, step.worker, step.env);
      if step.worker in s.workers { WorkerMovesItself(cfg, s, step.worker, step.env, w); }
    } else {
      WorkersFrame(cfg, s, step, w);
    }
  }

  lemma WorkerMovesItself(cfg: Settings, s: World, v: WorkerId, env: Env, w: WorkerId)
    requires v in s.workers && v != w
    ensures w in WorkerStep(cfg, s, v, env).workers <==> w in s.workers
    ensures w in s.workers ==> WorkerStep(cfg, s, v, env).workers[w] == s.workers[w]
  {
    var h := s.workers[v];
    assert Effect(s, h, ActionAt(cfg, v, h, env)).workers == s.workers;
  }

  /** After the audit write the job is at rest: dead-lettered now, or found so or finished. */
  lemma MarkIsObsolete(cfg: Settings, s: World, i: nat, t: World)
    requires JobsOk(cfg, s) && i < |s.stream| && s.stream[i].job in s.db.jobs
    requires t.db == Recorded(s.db, s.stream[i].job, DeadLetterWrite(s.stream[i])) && t.stream == s.stream
    ensures Obsolete(t, i) && JudgeIn(s.db, s.stream[i].job, DeadLetterWrite(s.stream[i])) in {Accepted, Illegal}
  {
    var m := s.stream[i];
    assert JobOk(cfg, s.db.jobs[m.job], DrawnFrom(s.issued, m.job));
    AuditRests(s.db.jobs[m.job].row, m);
    assert !Active(t.db.jobs[m.job].row.state);
  }

  lemma MarkActs(cfg: Settings, s: World, l: string, inWindow: bool)
    requires JobsOk(cfg, s) && l in s.listeners && s.listeners[l].pc == Mark
    requires s.listeners[l].msg < |s.stream| && s.stream[s.listeners[l].msg].job in s.db.jobs
    ensures var t := ListenerStep(s, l, inWindow); l in t.listeners ==> ListenerSpares(t, t.listeners[l])
  {
    MarkIsObsolete(cfg, s, s.listeners[l].msg, ListenerStep(s, l, inWindow));
  }

  /** Every other move of a listener leaves it sparing, whatever the jobs. */
  lemma OtherActs(s: World, l: string, inWindow: bool)
    requires l in s.listeners && s.listeners[l].pc != Mark && ListenerSpares(s, s.listeners[l])
    requires s.listeners[l].msg < |s.stream|
    ensures var t := ListenerStep(s, l, inWindow); l in t.listeners ==> ListenerSpares(t, t.listeners[l])
  {
    match s.listeners[l].pc
    case Load =>
    case Copy =>
    case Remove =>
    case Settle =>
  }

  lemma ListenerActs(cfg: Settings, s: World, l: string, inWindow: bool)
    requires JobsOk(cfg, s) && l in s.listeners && ListenerSpares(s, s.listeners[l])
    requires s.listeners[l].msg < |s.stream| && s.stream[s.listeners[l].msg].job in s.db.jobs
    ensures var t := ListenerStep(s, l, inWindow); l in t.listeners ==> ListenerSpares(t, t.listeners[l])
  {
    if s.listeners[l].pc == Mark { MarkActs(cfg, s, l, inWindow); } else { OtherActs(s, l, inWindow); }
  }

  lemma ListenerStands(cfg: Settings, s: World, step: Step, q: Quarantine)
    requires JobsOk(cfg, s) && MessagesOk(cfg, s) && ListenerSpares(s, q) && q.msg < |s.stream|
    requires Grows(s, Next(cfg, s, step))
    ensures ListenerSpares(Next(cfg, s, step), q)
  {
    assert MessageOk(cfg, s, q.msg) && SameLetter(s.stream[q.msg], Next(cfg, s, step).stream[q.msg]);
    if q.pc == Remove { ObsoleteStays(cfg, s, step, q.msg); }
  }

  lemma ListenerMovesItself(s: World, k: string, inWindow: bool, l: string)
    requires k in s.listeners && k != l
    ensures var t := ListenerStep(s, k, inWindow);
            (l in t.listeners <==> l in s.listeners) && (l in s.listeners ==> t.listeners[l] == s.listeners[l])
  {
    OneListenerMoves(s, k, inWindow);
  }

  lemma OneListenerMoves(s: World, k: string, inWindow: bool)
    requires k in s.listeners
    ensures var after := ListenerStep(s, k, inWindow).listeners;
            || after == s.listeners || after == s.listeners - {k}
            || (k in after && after == s.listeners[k := after[k]])
  {
    if s.listeners[k].msg < |s.stream| {
      match s.listeners[k].pc
      case Load =>
      case Copy =>
      case Mark =>
      case Remove =>
      case Settle =>
    }
  }

  /** A quarantine that a step leaves alone, or that it just began. */
  lemma OtherListeners(cfg: Settings, s: World, step: Step, l: string)
    requires step != Swallow(l) && !(step.Listening? && step.listener == l) && l in Next(cfg, s, step).listeners
    ensures var q := Next(cfg, s, step).listeners[l];
            (l in s.listeners && s.listeners[l] == q) || q.pc == Load
  {
    match step
    case Work(w, env) => if w in s.workers { EffectFramed(s, s.workers[w], ActionAt(cfg, w, s.workers[w], env)); }
    case Listening(k, inWindow) => if k in s.listeners { ListenerMovesItself(s, k, inWindow, l); }
    case Fetch(_, _) =>
    case Swallow(_) =>
    case ListenerDie(_) =>
    case _ => PeersFrame(cfg, s, step);
  }

  /** A quarantine stays with its message. */
  lemma ListenerKeepsMessage(cfg: Settings, s: World, step: Step, l: string)
    requires l in s.listeners && l in Next(cfg, s, step).listeners
    ensures Next(cfg, s, step).listeners[l].msg == s.listeners[l].msg
  {
    match step
    case Work(w, env) => if w in s.workers { EffectFramed(s, s.workers[w], ActionAt(cfg, w, s.workers[w], env)); }
    case Listening(k, inWindow) =>
      if k in s.listeners {
        if k == l { ListenerKeepsOwn(s, l, inWindow); } else { ListenerMovesItself(s, k, inWindow, l); }
      }
    case Fetch(_, _) =>
    case Swallow(_) =>
    case ListenerDie(_) =>
    case _ => PeersFrame(cfg, s, step);
  }

  lemma ListenerKeepsOwn(s: World, l: string, inWindow: bool)
    requires l in s.listeners
    ensures var t := ListenerStep(s, l, inWindow); l in t.listeners ==> t.listeners[l].msg == s.listeners[l].msg
  {
    if s.listeners[l].msg < |s.stream| {
      match s.listeners[l].pc
      case Load =>
      case Copy =>
      case Mark =>
      case Remove =>
      case Settle =>
    }
  }

  lemma ListenersStaySparing(cfg: Settings, s: World, step: Step, l: string)
    requires JobsOk(cfg, s) && MessagesOk(cfg, s) && step != Swallow(l) && Grows(s, Next(cfg, s, step))
    requires l in s.listeners ==> s.listeners[l].msg < |s.stream| && ListenerSpares(s, s.listeners[l])
    requires l in Next(cfg, s, step).listeners
    ensures ListenerSpares(Next(cfg, s, step), Next(cfg, s, step).listeners[l])
  {
    if step.Listening? && step.listener == l {
      if l in s.listeners {
        assert MessageOk(cfg, s, s.listeners[l].msg);
        ListenerActs(cfg, s, l, step.inWindow);
      }
    } else {
      OtherListeners(cfg, s, step, l);
      if l in s.listeners { ListenerStands(cfg, s, step, s.listeners[l]); }
    }
  }

  lemma HandlersStaySparing(cfg: Settings, s: World, step: Step, j: JobId)
    requires JobsOk(cfg, s) && MessagesOk(cfg, s) && HandlersOk(cfg, s)
    requires HandlersSpare(s, j) && Sober(s, step, j) && Grows(s, Next(cfg, s, step))
    ensures HandlersSpare(Next(cfg, s, step), j)
  {
    var t := Next(cfg, s, step);
    forall w | w in t.workers && t.workers[w].job == j && Obsoleting(t.workers[w].pc)
      ensures Obsolete(t, t.workers[w].delivery.msg)
    {
      WasObsolete(cfg, s, step, w, j);
      assert MessageOk(cfg, s, t.workers[w].delivery.msg);
      ObsoleteStays(cfg, s, step, t.workers[w].delivery.msg);
    }
  }

  lemma ListenerSparesNext(cfg: Settings, s: World, step: Step, l: string, j: JobId)
    requires JobsOk(cfg, s) && MessagesOk(cfg, s) && Sober(s, step, j) && Grows(s, Next(cfg, s, step))
    requires l in s.listeners ==>
               ListenerOk(s, l) && (Concerns(s, s.listeners[l].msg, j) ==> ListenerSpares(s, s.listeners[l]))
    requires var t := Next(cfg, s, step); l in t.listeners && Concerns(t, t.listeners[l].msg, j)
    ensures ListenerSpares(Next(cfg, s, step), Next(cfg, s, step).listeners[l])
  {
    if l in s.listeners {
      ListenerKeepsMessage(cfg, s, step, l);
      assert SameLetter(s.stream[s.listeners[l].msg], Next(cfg, s, step).stream[s.listeners[l].msg]);
    }
    if step == Swallow(l) {
      SwallowNeedsListener(cfg, s, l);
    }
    ListenersStaySparing(cfg, s, step, l);
  }

  lemma SwallowNeedsListener(cfg: Settings, s: World, l: string)
    ensures l in Next(cfg, s, Swallow(l)).listeners ==> l in s.listeners
  {}

  lemma SparedKeeps(cfg: Settings, s: World, step: Step, j: JobId)
    requires Inv(cfg, s) && Spared(s, j) && Sober(s, step, j)
    ensures Spared(Next(cfg, s, step), j)
  {
    var t := Next(cfg, s, step);
    NextGrows(cfg, s, step);
    HandlersStaySparing(cfg, s, step, j);
    forall l | l in t.listeners && Concerns(t, t.listeners[l].msg, j) ensures ListenerSpares(t, t.listeners[l]) {
      if l in s.listeners { assert ListenerOk(s, l); }
      ListenerSparesNext(cfg, s, step, l, j);
    }
    forall i | 0 <= i < |t.stream| && t.stream[i].job == j
               && (!Stored(t.stream[i].fate) || t.stream[i].advisory == Advisory.Settled)
      ensures !Stored(t.stream[i].fate) && Obsolete(t, i) { GoneStaysObsolete(cfg, s, step, i, j); }
  }

  lemma SparedLink(cfg: Settings, ws: seq<World>, steps: seq<Step>, n: nat, j: JobId)
    requires IsRun(cfg, ws, steps) && n < |steps| && Sober(ws[n], steps[n], j) && Spared(ws[n], j)
    ensures Spared(ws[n + 1], j)
  {
    GenesisIsSafe(cfg);
    PathKeeps(cfg, ws, steps, n);
    SparedKeeps(cfg, ws[n], steps[n], j);
    assert Linked(cfg, ws, steps, n);
  }

  lemma {:induction false} SoberRunSpares(cfg: Settings, ws: seq<World>, steps: seq<Step>, n: nat, j: JobId)
    requires IsRun(cfg, ws, steps) && SoberRun(ws, steps, j) && n < |ws|
    ensures Spared(ws[n], j)
  {
    if n > 0 {
      SoberRunSpares(cfg, ws, steps, n - 1, j);
      SparedLink(cfg, ws, steps, n - 1, j);
    }
  }

  lemma HasLatestRow(db: Database, j: JobId)
    requires Coherent(db) && j in db.jobs
    ensures 0 <= LatestRow(db.outbox, j) < |db.outbox|
  {
    LatestIsLatest(db.outbox, j);
    if LatestRow(db.outbox, j) < 0 { NoRows(db.outbox, j); }
  }

  /** In a spared world the job, if it still needs one, has its carrier. */
  lemma SparedHasCarrier(cfg: Settings, s: World, j: JobId)
    requires Coherent(s.db) && MessagesOk(cfg, s) && GoneIsObsolete(s, j)
    requires forall r :: 0 <= r < |s.db.outbox| && s.db.outbox[r].published ==> Known(s.stream, r)
    requires j in s.db.jobs && Active(s.db.jobs[j].row.state)
    ensures HasCarrier(s, j)
  {
    HasLatestRow(s.db, j);
    LatestIsLatest(s.db.outbox, j);
    var r := LatestRow(s.db.outbox, j);
    if Known(s.stream, r) { LetterIsAlive(cfg, s, j, r); }
  }

  lemma LetterIsAlive(cfg: Settings, s: World, j: JobId, r: nat)
    requires MessagesOk(cfg, s) && GoneIsObsolete(s, j) && j in s.db.jobs && Active(s.db.jobs[j].row.state)
    requires r < |s.db.outbox| && s.db.outbox[r].job == j && r == LatestRow(s.db.outbox, j) && Known(s.stream, r)
    ensures AliveBut(s, r, -1)
  {
    var i :| 0 <= i < |s.stream| && s.stream[i].row == r;
    assert MessageOk(cfg, s, i);
    assert Alive(s, i);
  }

  /**
   The exact reason a job is lost, with no assumption on time and whatever happens to other jobs: if
   the listener swallows no error about it and none of its COMPLETED is misjudged, a QUEUED or
   RUNNING job has, in every state of the run, the carrier born of its latest submission or replay.
   */
  lemma SoberRunLosesNoJob(cfg: Settings, ws: seq<World>, steps: seq<Step>, n: nat, j: JobId)
    requires IsRun(cfg, ws, steps) && SoberRun(ws, steps, j) && n < |ws|
    requires j in ws[n].db.jobs && Active(ws[n].db.jobs[j].row.state)
    ensures HasCarrier(ws[n], j)
  {
    SoberRunSpares(cfg, ws, steps, n, j);
    GenesisIsSafe(cfg);
    PathKeeps(cfg, ws, steps, n);
    SparedHasCarrier(cfg, ws[n], j);
  }

  // ----- what a carrier is good for -----

  /** The message moves again: it is delivered, raises its advisory, or has it taken up. */
  ghost predicate MovesAgain(cfg: Settings, s: World, i: nat, step: Step) {
    || (step.Deliver? && step.msg == i && CanDeliver(cfg, s, step.worker, i))
    || (step == Advise(i) && CanAdvise(cfg, s, i))
    || (&& step.Fetch? && step.msg == i && i < |s.stream| && step.listener !in s.listeners
        && s.stream[i].advisory == Raised)
  }

  /** Nothing more than time and an idle worker or listener stands between an alive message and its next move. */
  lemma AliveCanMove(cfg: Settings, s: World, i: nat, w: WorkerId, l: string)
    requires Alive(s, i) && w !in s.workers && l !in s.listeners
    ensures exists dt, step :: dt >= 0.0 && MovesAgain(cfg, Next(cfg, s, Tick(dt)), i, step)
  {
    var m := s.stream[i];
    var due := DueAt(m.fate);
    var dt := if due <= s.now then 0.0 else due - s.now;
    var t := Next(cfg, s, Tick(dt));
    assert t.stream == s.stream && t.workers == s.workers && t.listeners == s.listeners && Due(m, t.now);
    if m.deliveries < cfg.maxDeliver {
      assert MovesAgain(cfg, t, i, Deliver(w, i));
    } else if m.advisory == NotRaised {
      assert MovesAgain(cfg, t, i, Advise(i));
    } else {
      assert MovesAgain(cfg, t, i, Fetch(l, i));
    }
  }
}
