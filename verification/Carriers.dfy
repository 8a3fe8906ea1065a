/**
 Who takes a job's carrier, and who can give it one back. A misjudged COMPLETED and a swallowed
 quarantine error take it if and only if no other message of the same outbox row is alive; in every
 reachable state the steps behind these two, and no others, take the carrier of a job that stays active.
 */
module Carriers {
  import opened Core
  import opened Domain
  import opened Keys
  import opened Records
  import opened System
  import opened Safety
  import opened Frames
  import opened Preservation
  import opened OtherSteps
  import opened Guarantees
  import opened NoLoss

  /** Removing or settling message i alone leaves exactly the carriers that do not need it. */
  lemma CarriersAfter(s: World, t: World, j: JobId, i: nat)
    requires t.db.outbox == s.db.outbox && i < |s.stream| && |t.stream| == |s.stream| && !Alive(t, i)
    requires t.stream[i].row == s.stream[i].row
    requires forall k :: 0 <= k < |s.stream| && k != i ==> t.stream[k] == s.stream[k]
    ensures var r := LatestRow(s.db.outbox, j);
            if s.stream[i].row == r then HasCarrier(t, j) <==> 0 <= r < |s.db.outbox| && AliveBut(s, r, i)
            else HasCarrier(t, j) <==> HasCarrier(s, j)
  {
    var r := LatestRow(s.db.outbox, j);
    if 0 <= r < |s.db.outbox| {
      SameRows(s, t, i, r);
      OthersAlive(s, t, i, r);
    }
  }

  lemma SameRows(s: World, t: World, i: nat, r: nat)
    requires i < |s.stream| && |t.stream| == |s.stream| && t.stream[i].row == s.stream[i].row
    requires forall k :: 0 <= k < |s.stream| && k != i ==> t.stream[k] == s.stream[k]
    ensures Known(t.stream, r) <==> Known(s.stream, r)
    ensures s.stream[i].row == r ==> Known(s.stream, r)
  {
    if k :| 0 <= k < |t.stream| && t.stream[k].row == r { assert s.stream[k].row == r; }
    if k :| 0 <= k < |s.stream| && s.stream[k].row == r { assert t.stream[k].row == r; }
  }

  lemma OthersAlive(s: World, t: World, i: nat, r: nat)
    requires i < |s.stream| && |t.stream| == |s.stream| && !Alive(t, i) && t.stream[i].row == s.stream[i].row
    requires forall k :: 0 <= k < |s.stream| && k != i ==> t.stream[k] == s.stream[k]
    ensures AliveBut(t, r, -1) <==> AliveBut(s, r, i)
    ensures s.stream[i].row != r ==> (AliveBut(s, r, i) <==> AliveBut(s, r, -1))
  {
    if AliveBut(t, r, -1) {
      var k :| 0 <= k < |t.stream| && k != -1 && t.stream[k].row == r && Alive(t, k);
      assert k != i && s.stream[k].row == r && Alive(s, k);
    }
    if AliveBut(s, r, i) {
      var k :| 0 <= k < |s.stream| && k != i && s.stream[k].row == r && Alive(s, k);
      assert k != -1 && t.stream[k].row == r && Alive(t, k);
    }
  }

  /** About to find COMPLETED illegal in QUEUED, or on the way out after that. */
  ghost predicate LeavesObsolete(s: World, w: WorkerId) {
    && w in s.workers
    && (|| (s.workers[w].pc == WriteCompleted && InState(s, s.workers[w].job, Queued))
        || Obsoleting(s.workers[w].pc))
  }

  ghost predicate OnTheWayOut(s: World, t: World, w: WorkerId)
    requires w in s.workers
  {
    var h := s.workers[w];
    && t.db == s.db
    && t.stream == (if h.pc == TermObsolete then Resolve(s.stream, h.delivery.msg, Termed) else s.stream)
    && t.listeners == s.listeners
    && t.workers == s.workers[w := h.(pc := if h.pc == WriteCompleted then DropClaimObsolete
                                            else if h.pc == DropClaimObsolete then TermObsolete else ReleaseLease)]
  }

  lemma CompletedIsRefused(cfg: Settings, s: World, w: WorkerId, env: Env)
    requires w in s.workers && s.workers[w].pc == WriteCompleted && InState(s, s.workers[w].job, Queued)
    ensures OnTheWayOut(s, Next(cfg, s, Work(w, env)), w)
  {
    var h := s.workers[w];
    WorkUnfolds(cfg, s, w, env);
    assert Ask(s, h, Commit(WorkerWrite(h, Completed)), env) == Ruled(Illegal);
    assert Onward(cfg, h, Ruled(Illegal)) == Some(DropClaimObsolete);
  }

  lemma ObsoleteClaimIsDropped(cfg: Settings, s: World, w: WorkerId, env: Env)
    requires w in s.workers && s.workers[w].pc == DropClaimObsolete
    ensures OnTheWayOut(s, Next(cfg, s, Work(w, env)), w)
  {
    WorkUnfolds(cfg, s, w, env);
    assert Onward(cfg, s.workers[w], Yes) == Some(TermObsolete);
  }

  lemma ObsoleteIsTermed(cfg: Settings, s: World, w: WorkerId, env: Env)
    requires w in s.workers && s.workers[w].pc == TermObsolete
    ensures OnTheWayOut(s, Next(cfg, s, Work(w, env)), w)
  {
    WorkUnfolds(cfg, s, w, env);
    assert Onward(cfg, s.workers[w], Yes) == Some(ReleaseLease);
  }

  /** The three effects of a handler on its way out of an illegal COMPLETED. */
  lemma ObsoleteStep(cfg: Settings, s: World, w: WorkerId, env: Env)
    requires LeavesObsolete(s, w)
    ensures OnTheWayOut(s, Next(cfg, s, Work(w, env)), w)
  {
    match s.workers[w].pc
    case WriteCompleted => CompletedIsRefused(cfg, s, w, env);
    case DropClaimObsolete => ObsoleteClaimIsDropped(cfg, s, w, env);
    case TermObsolete => ObsoleteIsTermed(cfg, s, w, env);
  }

  /** `w` makes the three moves of the path. */
  ghost predicate ThreeMoves(cfg: Settings, ws: seq<World>, steps: seq<Step>, w: WorkerId) {
    Path(cfg, ws, steps) && |steps| == 3 && forall n :: 0 <= n < 3 ==> steps[n].Work? && steps[n].worker == w
  }

  lemma ObsoleteLink(cfg: Settings, ws: seq<World>, steps: seq<Step>, n: nat, w: WorkerId)
    requires Path(cfg, ws, steps) && n < |steps| && steps[n].Work? && steps[n].worker == w
    requires LeavesObsolete(ws[n], w)
    ensures OnTheWayOut(ws[n], ws[n + 1], w)
  {
    assert Linked(cfg, ws, steps, n);
    ObsoleteStep(cfg, ws[n], w, steps[n].env);
  }

  lemma MisjudgedRuns(cfg: Settings, ws: seq<World>, steps: seq<Step>, w: WorkerId)
    requires ThreeMoves(cfg, ws, steps, w) && Misjudges(ws[0], w)
    ensures ws[3].db == ws[0].db && ws[3].stream == Resolve(ws[0].stream, ws[0].workers[w].delivery.msg, Termed)
    ensures ws[3].listeners == ws[0].listeners
    ensures ws[3].workers == ws[0].workers[w := ws[0].workers[w].(pc := ReleaseLease)]
  {
    ObsoleteLink(cfg, ws, steps, 0, w);
    RefusedRuns(cfg, ws, steps, w);
  }

  lemma RefusedRuns(cfg: Settings, ws: seq<World>, steps: seq<Step>, w: WorkerId)
    requires ThreeMoves(cfg, ws, steps, w) && w in ws[1].workers && ws[1].workers[w].pc == DropClaimObsolete
    ensures ws[3].db == ws[1].db && ws[3].stream == Resolve(ws[1].stream, ws[1].workers[w].delivery.msg, Termed)
    ensures ws[3].listeners == ws[1].listeners
    ensures ws[3].workers == ws[1].workers[w := ws[1].workers[w].(pc := ReleaseLease)]
  {
    ObsoleteLink(cfg, ws, steps, 1, w);
    ObsoleteLink(cfg, ws, steps, 2, w);
  }

  /**
   A misjudged COMPLETED and the two effects behind it leave the job QUEUED, and carried if and only
   if another message of the same outbox row is alive.
   */
  lemma MisjudgementTakesCarrier(cfg: Settings, ws: seq<World>, steps: seq<Step>, w: WorkerId)
    requires ThreeMoves(cfg, ws, steps, w) && Misjudges(ws[0], w)
    ensures var j, i := ws[0].workers[w].job, ws[0].workers[w].delivery.msg;
            && InState(ws[3], j, Queued)
            && (HasCarrier(ws[3], j) <==>
                  ws[0].stream[i].row < |ws[0].db.outbox| && AliveBut(ws[0], ws[0].stream[i].row, i))
  {
    MisjudgedRuns(cfg, ws, steps, w);
    CarriersAfter(ws[0], ws[3], ws[0].workers[w].job, ws[0].workers[w].delivery.msg);
  }

  /** The listener's quarantine raises, and the loop acks the advisory all the same. */
  ghost predicate SwallowsError(cfg: Settings, ws: seq<World>, steps: seq<Step>, l: string) {
    && Path(cfg, ws, steps) && |steps| == 2
    && steps[0] == Swallow(l) && steps[1].Listening? && steps[1].listener == l
    && l in ws[0].listeners && ws[0].listeners[l].msg < |ws[0].stream|
  }

  lemma SwallowedRuns(cfg: Settings, ws: seq<World>, steps: seq<Step>, l: string)
    requires SwallowsError(cfg, ws, steps, l)
    ensures var i := ws[0].listeners[l].msg;
            && ws[2].db == ws[0].db
            && ws[2].stream == ws[0].stream[i := ws[0].stream[i].(advisory := Advisory.Settled)]
            && ws[2].listeners == ws[0].listeners - {l} && ws[2].workers == ws[0].workers
  {
    assert Linked(cfg, ws, steps, 0) && Linked(cfg, ws, steps, 1);
    assert ws[1] == Listen(ws[0], l, ws[0].listeners[l].msg, Settle);
    ListenUnfolds(cfg, ws[1], l, steps[1].inWindow);
  }

  /**
   "A quarantine can be late; it cannot be lost" fails for an error that the listener catches. The job
   keeps its state; if the message was of its latest outbox row, the job is carried afterwards if and
   only if another message of that row is alive; if not, nothing changes for it.
   */
  lemma SwallowedErrorTakesCarrier(cfg: Settings, ws: seq<World>, steps: seq<Step>, l: string)
    requires SwallowsError(cfg, ws, steps, l)
    ensures var s, i := ws[0], ws[0].listeners[l].msg; var j := s.stream[i].job; var r := LatestRow(s.db.outbox, j);
            && ws[2].db == s.db
            && (if s.stream[i].row == r then HasCarrier(ws[2], j) <==> r < |s.db.outbox| && AliveBut(s, r, i)
                else HasCarrier(ws[2], j) <==> HasCarrier(s, j))
  {
    SwallowedRuns(cfg, ws, steps, l);
    var i := ws[0].listeners[l].msg;
    CarriersAfter(ws[0], ws[2], ws[0].stream[i].job, i);
  }

  // ----- once taken, the carrier stays away -----

  /** The broker has seen the job's latest row, and none of its messages is alive. */
  ghost predicate Uncarried(s: World, j: JobId) {
    var r := LatestRow(s.db.outbox, j);
    0 <= r < |s.db.outbox| && Known(s.stream, r) && !AliveBut(s, r, -1)
  }

  /** A relay that died between publishing the row and marking it publishes it again, outside the window. */
  ghost predicate Republishes(s: World, step: Step, row: int) {
    && step.RelayWork? && !step.inWindow && step.relay in s.relays
    && var r := s.relays[step.relay]; r.sent < |r.batch| && r.batch[r.sent] == row
  }

  /** In a reachable state a job without carrier is one whose latest row the broker knows, with no message alive. */
  lemma UncarriedExactly(cfg: Settings, s: World, j: JobId)
    requires Reachable(cfg, s) && j in s.db.jobs
    ensures Uncarried(s, j) <==> !HasCarrier(s, j)
  {
    ReachableIsSafe(cfg, s);
    NotCarried(s, j);
  }

  lemma NotCarried(s: World, j: JobId)
    requires Coherent(s.db) && j in s.db.jobs
    requires forall r :: 0 <= r < |s.db.outbox| && s.db.outbox[r].published ==> Known(s.stream, r)
    ensures Uncarried(s, j) <==> !HasCarrier(s, j)
  {
    HasLatestRow(s.db, j);
  }

  lemma SettledStays(cfg: Settings, s: World, step: Step, i: nat)
    requires i < |s.stream| && s.stream[i].advisory == Advisory.Settled
    ensures i < |Next(cfg, s, step).stream| && Next(cfg, s, step).stream[i].advisory == Advisory.Settled
  {
    match step
    case Work(w, env) =>
      WorkUnfolds(cfg, s, w, env);
      if w in s.workers { EffectKeepsAdvisory(s, s.workers[w], ActionAt(cfg, w, s.workers[w], env), i); }
    case Listening(l, inWindow) =>
      ListenUnfolds(cfg, s, l, inWindow);
      if l in s.listeners { ListenerRemoves(s, l, inWindow, i); }
    case _ => LetterFrame(cfg, s, step, i);
  }

  lemma EffectKeepsAdvisory(s: World, h: Handler, a: Action, i: nat)
    requires i < |s.stream|
    ensures i < |Effect(s, h, a).stream| && Effect(s, h, a).stream[i].advisory == s.stream[i].advisory
  {}

  lemma DeadStaysDead(cfg: Settings, s: World, step: Step, i: nat)
    requires i < |s.stream| && !Alive(s, i) && StreamGrows(s.stream, Next(cfg, s, step).stream)
    ensures !Alive(Next(cfg, s, step), i)
  {
    assert SameLetter(s.stream[i], Next(cfg, s, step).stream[i]);
    if s.stream[i].advisory == Advisory.Settled { SettledStays(cfg, s, step, i); }
  }

  /** Only a replay gives an existing job a new latest row, and it replays only a job in DEAD_LETTER. */
  lemma LatestStays(cfg: Settings, s: World, step: Step, j: JobId)
    requires j in s.db.jobs && Active(s.db.jobs[j].row.state) && OutboxGrows(s.db.outbox, Next(cfg, s, step).db.outbox)
    ensures LatestRow(Next(cfg, s, step).db.outbox, j) == LatestRow(s.db.outbox, j)
  {
    var t := Next(cfg, s, step);
    OutboxMoves(cfg, s, step);
    if |t.db.outbox| == |s.db.outbox| {
      SameLatest(s.db.outbox, t.db.outbox, j);
    } else {
      assert t.db.outbox[|s.db.outbox|].job != j;
    }
  }

  lemma SameLatest(a: seq<OutboxRow>, b: seq<OutboxRow>, j: JobId)
    requires OutboxGrows(a, b) && |a| == |b|
    ensures LatestRow(a, j) == LatestRow(b, j)
  {
    LatestIsLatest(a, j);
    LatestIsLatest(b, j);
  }

  ghost predicate AddsRow(s: World, t: World) {
    var n := |s.db.outbox|;
    && |t.db.outbox| == n + 1 && t.db.outbox[..n] == s.db.outbox
    && (t.db.outbox[n].job !in s.db.jobs || InState(s, t.db.outbox[n].job, DeadLetter))
  }

  /** Who adds to the outbox: a submission of a new job, or a replay of one in DEAD_LETTER. */
  lemma OutboxMoves(cfg: Settings, s: World, step: Step)
    ensures var t := Next(cfg, s, step);
            || |t.db.outbox| == |s.db.outbox|
            || AddsRow(s, t)
  {
    match step
    case SubmitJob(_, _, _) =>
    case ReplayJob(id) => assert JudgeIn(s.db, id, ReplayWrite) == Accepted ==> InState(s, id, DeadLetter);
    case RelayWork(_, _) =>
    case Work(w, env) =>
      WorkUnfolds(cfg, s, w, env);
      if w in s.workers { EffectFramed(s, s.workers[w], ActionAt(cfg, w, s.workers[w], env)); }
    case Listening(l, inWindow) =>
      ListenUnfolds(cfg, s, l, inWindow);
      if l in s.listeners { ListenerWrites(s, l, inWindow); }
    case _ => TablesFrame(cfg, s, step);
  }

  /**
   A job without carrier, while QUEUED or RUNNING, gets one back by one kind of step and no other: a relay
   publishes its unmarked row again after the broker has forgotten the row's message id.
   */
  lemma CarriedAgainExactlyBy(cfg: Settings, s: World, step: Step, j: JobId)
    requires Uncarried(s, j) && j in s.db.jobs && Active(s.db.jobs[j].row.state)
    ensures var t := Next(cfg, s, step);
            && (Republishes(s, step, LatestRow(s.db.outbox, j)) ==> HasCarrier(t, j))
            && (!Republishes(s, step, LatestRow(s.db.outbox, j)) ==> Uncarried(t, j))
  {
    var r := LatestRow(s.db.outbox, j);
    NextGrows(cfg, s, step);
    LatestStays(cfg, s, step, j);
    if Republishes(s, step, r) { RepublicationCarries(cfg, s, step, r); } else { NoLetterRevives(cfg, s, step, r); }
  }

  lemma RepublicationCarries(cfg: Settings, s: World, step: Step, r: nat)
    requires r < |s.db.outbox| && Republishes(s, step, r)
    ensures AliveBut(Next(cfg, s, step), r, -1)
  {
    RelayUnfolds(cfg, s, step.relay, step.inWindow);
    var t := Next(cfg, s, step);
    assert t.stream[|s.stream|].row == r && Alive(t, |s.stream|);
  }

  lemma NoLetterRevives(cfg: Settings, s: World, step: Step, r: nat)
    requires Known(s.stream, r) && !AliveBut(s, r, -1) && !Republishes(s, step, r)
    requires StreamGrows(s.stream, Next(cfg, s, step).stream)
    ensures Known(Next(cfg, s, step).stream, r) && !AliveBut(Next(cfg, s, step), r, -1)
  {
    var t := Next(cfg, s, step);
    KnownStays(s.stream, t.stream, r);
    StreamLength(cfg, s, step);
    forall i | 0 <= i < |t.stream| && t.stream[i].row == r ensures !Alive(t, i) {
      if i < |s.stream| {
        assert SameLetter(s.stream[i], t.stream[i]);
        DeadStaysDead(cfg, s, step, i);
      }
    }
  }

  /** Along a path without such a publication the job, while QUEUED or RUNNING, stays without. */
  lemma {:induction false} UncarriedForGood(cfg: Settings, ws: seq<World>, steps: seq<Step>, n: nat, j: JobId)
    requires Path(cfg, ws, steps) && n < |ws| && Uncarried(ws[0], j)
    requires forall k :: 0 <= k < |ws| ==> j in ws[k].db.jobs && Active(ws[k].db.jobs[j].row.state)
    requires forall k :: 0 <= k < |steps| ==> !Republishes(ws[k], steps[k], LatestRow(ws[k].db.outbox, j))
    ensures Uncarried(ws[n], j)
  {
    if n > 0 {
      UncarriedForGood(cfg, ws, steps, n - 1, j);
      UncarriedLink(cfg, ws, steps, n - 1, j);
    }
  }

  lemma UncarriedLink(cfg: Settings, ws: seq<World>, steps: seq<Step>, n: nat, j: JobId)
    requires Path(cfg, ws, steps) && n < |steps| && Uncarried(ws[n], j)
    requires j in ws[n].db.jobs && Active(ws[n].db.jobs[j].row.state)
    requires !Republishes(ws[n], steps[n], LatestRow(ws[n].db.outbox, j))
    ensures Uncarried(ws[n + 1], j)
  {
    assert Linked(cfg, ws, steps, n);
    CarriedAgainExactlyBy(cfg, ws[n], steps[n], j);
  }

  // ----- who takes it, in every reachable state -----

  /** A quarantine removes only messages their job no longer depends on. */
  ghost predicate RemovesObsolete(s: World) {
    forall l :: l in s.listeners && s.listeners[l].pc == Remove ==> Obsolete(s, s.listeners[l].msg)
  }

  lemma RemoveComesFromMark(s: World, l: string, inWindow: bool)
    requires l in s.listeners
    ensures var t := ListenerStep(s, l, inWindow);
            l in t.listeners && t.listeners[l].pc == Remove && s.listeners[l].msg < |s.stream| ==>
              s.listeners[l].pc == Mark
  {
    if s.listeners[l].msg < |s.stream| {
      match s.listeners[l].pc
      case Load =>
      case Copy =>
      case Mark =>
      case Remove =>
      case Settle =>
    }
  }

  lemma RemoverStaysRight(cfg: Settings, s: World, step: Step, l: string)
    requires JobsOk(cfg, s) && MessagesOk(cfg, s) && RemovesObsolete(s) && Grows(s, Next(cfg, s, step))
    requires l in s.listeners ==> ListenerOk(s, l)
    requires l in Next(cfg, s, step).listeners && Next(cfg, s, step).listeners[l].pc == Remove
    ensures Obsolete(Next(cfg, s, step), Next(cfg, s, step).listeners[l].msg)
  {
    if step.Listening? && step.listener == l {
      ListenUnfolds(cfg, s, l, step.inWindow);
      if l in s.listeners {
        assert MessageOk(cfg, s, s.listeners[l].msg);
        RemoveComesFromMark(s, l, step.inWindow);
        MarkActs(cfg, s, l, step.inWindow);
      }
    } else if step != Swallow(l) {
      OtherListeners(cfg, s, step, l);
      assert MessageOk(cfg, s, s.listeners[l].msg);
      ObsoleteStays(cfg, s, step, s.listeners[l].msg);
    }
  }

  lemma RemovesNext(cfg: Settings, s: World, step: Step)
    requires JobsOk(cfg, s) && MessagesOk(cfg, s) && RemovesObsolete(s)
    requires forall l :: l in s.listeners ==> ListenerOk(s, l)
    ensures RemovesObsolete(Next(cfg, s, step))
  {
    NextGrows(cfg, s, step);
    var t := Next(cfg, s, step);
    forall l | l in t.listeners && t.listeners[l].pc == Remove ensures Obsolete(t, t.listeners[l].msg) {
      RemoverStaysRight(cfg, s, step, l);
    }
  }

  lemma RemovesLink(cfg: Settings, ws: seq<World>, steps: seq<Step>, n: nat)
    requires IsRun(cfg, ws, steps) && n < |steps| && RemovesObsolete(ws[n])
    ensures RemovesObsolete(ws[n + 1])
  {
    GenesisIsSafe(cfg);
    PathKeeps(cfg, ws, steps, n);
    RemovesNext(cfg, ws[n], steps[n]);
    assert Linked(cfg, ws, steps, n);
  }

  lemma {:induction false} RunRemovesObsolete(cfg: Settings, ws: seq<World>, steps: seq<Step>, n: nat)
    requires IsRun(cfg, ws, steps) && n < |ws|
    ensures RemovesObsolete(ws[n])
  {
    if n > 0 {
      RunRemovesObsolete(cfg, ws, steps, n - 1);
      RemovesLink(cfg, ws, steps, n - 1);
    }
  }

  lemma ReachableRemovesObsolete(cfg: Settings, s: World)
    requires Reachable(cfg, s)
    ensures RemovesObsolete(s)
  {
    var ws, steps :| IsRun(cfg, ws, steps) && Last(ws) == s;
    RunRemovesObsolete(cfg, ws, steps, |ws| - 1);
  }

  /** The step terminates message i as obsolete, or settles its advisory. */
  ghost predicate Takes(s: World, step: Step, i: nat) {
    || (&& step.Work? && step.worker in s.workers
        && s.workers[step.worker].delivery.msg == i && s.workers[step.worker].pc == TermObsolete)
    || (step.Listening? && step.listener in s.listeners && s.listeners[step.listener] == Quarantine(i, Settle))
  }

  /** Message i is the last alive one of the row. */
  ghost predicate LastOf(s: World, i: nat, r: int) {
    Alive(s, i) && s.stream[i].row == r && !AliveBut(s, r, i)
  }

  /** What takes an alive message of an active job's latest row away. */
  lemma TakerIs(cfg: Settings, s: World, step: Step, i: nat, j: JobId)
    requires HandlersOk(cfg, s) && RemovesObsolete(s) && Alive(s, i) && Concerns(s, i, j)
    requires j in s.db.jobs && Active(s.db.jobs[j].row.state) && s.stream[i].row == LatestRow(s.db.outbox, j)
    requires !Alive(Next(cfg, s, step), i)
    ensures Takes(s, step, i)
  {
    NewlyGone(cfg, s, step, i);
    if Remover(s, step, i) && step.Work? {
      var w := step.worker;
      assert HandlerOk(cfg, s, w);
      if s.workers[w].pc != TermObsolete { RestIsObsolete(cfg, s, w); }
    }
  }

  lemma TakesApplied(cfg: Settings, s: World, step: Step, i: nat)
    requires Takes(s, step, i) && i < |s.stream|
    ensures var t := Next(cfg, s, step);
            && t.db.outbox == s.db.outbox && |t.stream| == |s.stream| && !Alive(t, i)
            && t.stream[i].row == s.stream[i].row
            && (forall k :: 0 <= k < |s.stream| && k != i ==> t.stream[k] == s.stream[k])
  {
    if step.Work? {
      TermIs(cfg, s, step.worker, step.env);
    } else {
      ListenUnfolds(cfg, s, step.listener, step.inWindow);
    }
  }

  lemma TermIs(cfg: Settings, s: World, w: WorkerId, env: Env)
    requires w in s.workers && s.workers[w].pc == TermObsolete
    ensures var t := Next(cfg, s, Work(w, env));
            t.db == s.db && t.stream == Resolve(s.stream, s.workers[w].delivery.msg, Termed)
  {
    WorkUnfolds(cfg, s, w, env);
    assert ActionAt(cfg, w, s.workers[w], env) == Action.Term;
  }

  /** Without one of these the carrier is still there. */
  lemma CarrierStays(cfg: Settings, s: World, step: Step, j: JobId)
    requires MessagesOk(cfg, s) && HandlersOk(cfg, s) && RemovesObsolete(s) && HasCarrier(s, j)
    requires j in s.db.jobs && Active(s.db.jobs[j].row.state) && Uncarried(Next(cfg, s, step), j)
    ensures exists i :: 0 <= i < |s.stream| && LastOf(s, i, LatestRow(s.db.outbox, j)) && Takes(s, step, i)
  {
    var r, t := LatestRow(s.db.outbox, j), Next(cfg, s, step);
    NextGrows(cfg, s, step);
    LatestStays(cfg, s, step, j);
    LatestIsLatest(s.db.outbox, j);
    if Waits(s, r) {
      NewRowIsAlive(cfg, s, step, r);
    } else {
      var i :| 0 <= i < |s.stream| && i != -1 && s.stream[i].row == r && Alive(s, i);
      assert MessageOk(cfg, s, i);
      TakerIs(cfg, s, step, i, j);
      OneAtATime(cfg, s, step, i, r);
    }
  }

  /** A row that the broker learns of by a step has an alive message after it. */
  lemma NewRowIsAlive(cfg: Settings, s: World, step: Step, r: nat)
    requires !Known(s.stream, r) && Known(Next(cfg, s, step).stream, r) && Grows(s, Next(cfg, s, step))
    ensures AliveBut(Next(cfg, s, step), r, -1)
  {
    var t := Next(cfg, s, step);
    var i :| 0 <= i < |t.stream| && t.stream[i].row == r;
    assert i < |s.stream| ==> SameLetter(s.stream[i], t.stream[i]);
    StreamLength(cfg, s, step);
    NewLetterIsStored(cfg, s, step);
    assert Alive(t, i);
  }

  lemma OneAtATime(cfg: Settings, s: World, step: Step, i: nat, r: int)
    requires Alive(s, i) && s.stream[i].row == r && Takes(s, step, i) && !AliveBut(Next(cfg, s, step), r, -1)
    ensures LastOf(s, i, r)
  {
    TakesApplied(cfg, s, step, i);
    OthersAlive(s, Next(cfg, s, step), i, r);
  }

  /**
   In every reachable state a step takes the carrier of a job that stays active if and only if it
   terminates as obsolete, or settles the advisory of, the last alive message of the job's latest row.
   */
  lemma CarrierTakenExactlyBy(cfg: Settings, s: World, step: Step, j: JobId)
    requires Reachable(cfg, s) && HasCarrier(s, j) && j in s.db.jobs && Active(s.db.jobs[j].row.state)
    ensures !HasCarrier(Next(cfg, s, step), j) <==>
              exists i :: 0 <= i < |s.stream| && LastOf(s, i, LatestRow(s.db.outbox, j)) && Takes(s, step, i)
  {
    var r, t := LatestRow(s.db.outbox, j), Next(cfg, s, step);
    ReachableNext(cfg, s, step);
    JobsStay(cfg, s, step, j);
    UncarriedExactly(cfg, t, j);
    if !HasCarrier(t, j) {
      ReachableIsSafe(cfg, s);
      ReachableRemovesObsolete(cfg, s);
      CarrierStays(cfg, s, step, j);
    }
    if i :| 0 <= i < |s.stream| && LastOf(s, i, r) && Takes(s, step, i) {
      TakesApplied(cfg, s, step, i);
      CarriersAfter(s, t, j, i);
    }
  }

  lemma JobsStay(cfg: Settings, s: World, step: Step, j: JobId)
    requires j in s.db.jobs
    ensures j in Next(cfg, s, step).db.jobs
  {
    NextGrows(cfg, s, step);
  }
}
