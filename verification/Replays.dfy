/**
 When a replay holds. An operator's replay is undone by a quarantine of one of the job's older messages.
 In any interleaving this can happen if and only if, at the replay, the job's older life is not quiet.
 */
module Replays {
  import opened Domain
  import opened Keys
  import opened Records
  import opened System
  import opened Safety
  import opened OtherSteps
  import opened Guarantees
  import opened NoLoss
  import opened Relays
  import opened OldLives
  import opened Movement

  /** The step is the audit write of an older message, and the job is active: it dead-letters the job. */
  ghost predicate Undoes(s: World, step: Step, j: JobId, bound: int) {
    && step.Listening? && step.listener in s.listeners && s.listeners[step.listener].pc == Mark
    && Old(s, s.listeners[step.listener].msg, j, bound)
    && j in s.db.jobs && Active(s.db.jobs[j].row.state)
  }

  lemma UndoingDeadLetters(cfg: Settings, s: World, step: Step, j: JobId, bound: int)
    requires Undoes(s, step, j, bound)
    ensures var t := Next(cfg, s, step); var m := s.stream[s.listeners[step.listener].msg];
            InState(t, j, DeadLetter) && LogIn(t, j) == LogIn(s, j) + [EventOf(DeadLetterWrite(m))]
  {
    AuditDeadLetters(cfg, s, step.listener, step.inWindow, s.listeners[step.listener].msg, j);
  }

  /** A replay accepted: QUEUED again, with one row more, and stream and listeners as they were. */
  lemma ReplayIs(cfg: Settings, s: World, j: JobId)
    requires InState(s, j, DeadLetter)
    ensures var t := Next(cfg, s, ReplayJob(j));
            && InState(t, j, Queued) && t.stream == s.stream && t.listeners == s.listeners
            && |t.db.outbox| == |s.db.outbox| + 1 && t.db.outbox[..|s.db.outbox|] == s.db.outbox
  {
    assert JudgeIn(s.db, j, ReplayWrite) == Accepted;
  }

  /** Quiet depends on stream, listeners and the rows below the bound. */
  lemma SameQuiet(s: World, t: World, j: JobId, bound: nat)
    requires t.stream == s.stream && t.listeners == s.listeners
    requires bound <= |s.db.outbox| && bound <= |t.db.outbox| && t.db.outbox[..bound] == s.db.outbox[..bound]
    requires Quiet(s, j, bound)
    ensures Quiet(t, j, bound)
  {
    forall r | 0 <= r < bound && t.db.outbox[r].job == j ensures Known(t.stream, r) {
      assert t.db.outbox[..bound][r] == s.db.outbox[..bound][r];
    }
    forall i | 0 <= i < |t.stream| && Old(t, i, j, bound) ensures !Alive(t, i) { assert Old(s, i, j, bound); }
    forall l | l in t.listeners && Old(t, t.listeners[l].msg, j, bound) ensures !WillMark(t, t.listeners[l]) {
      assert Old(s, s.listeners[l].msg, j, bound);
    }
  }

  lemma ReplayKeepsQuiet(cfg: Settings, s: World, j: JobId)
    requires InState(s, j, DeadLetter)
    ensures Quiet(Next(cfg, s, ReplayJob(j)), j, |s.db.outbox|) <==> Quiet(s, j, |s.db.outbox|)
  {
    ReplayIs(cfg, s, j);
    var n, t := |s.db.outbox|, Next(cfg, s, ReplayJob(j));
    assert s.db.outbox[..n] == s.db.outbox;
    if Quiet(s, j, n) { SameQuiet(s, t, j, n); }
    if Quiet(t, j, n) { SameQuiet(t, s, j, n); }
  }

  /** Along every path, short of a publication of an old row outside the window, nothing undoes a quiet replay. */
  lemma QuietReplayHolds(cfg: Settings, ws: seq<World>, steps: seq<Step>, m: nat, n: nat, j: JobId)
    requires Path(cfg, ws, steps) && Reachable(cfg, ws[0]) && m < n < |steps|
    requires steps[m] == ReplayJob(j) && InState(ws[m], j, DeadLetter) && Quiet(ws[m], j, |ws[m].db.outbox|)
    requires NeverReopens(ws, steps, m, n, j, |ws[m].db.outbox|)
    ensures !Undoes(ws[n], steps[n], j, |ws[m].db.outbox|)
  {
    ReachableIsSafe(cfg, ws[0]);
    StaysQuiet(cfg, ws, steps, m, n, j, |ws[m].db.outbox|);
  }

  /** Some steps after the replay, with every publication inside the window, lead to one that undoes it. */
  ghost predicate CanBeUndone(cfg: Settings, s: World, j: JobId) {
    exists u, step ::
      Leads(cfg, Next(cfg, s, ReplayJob(j)), u) && Undoes(u, step, j, |s.db.outbox|)
  }

  /**
   A replay in any reachable state: it can be undone if and only if, at the replay, some older row has
   not been published, some older message is stored with its advisory not settled, or some listener
   stands before its audit of an older message.
   */
  lemma ReplayHoldsExactly(cfg: Settings, s: World, j: JobId)
    requires Reachable(cfg, s) && InState(s, j, DeadLetter) && cfg.batchSize > 0
    ensures Quiet(s, j, |s.db.outbox|) <==> !CanBeUndone(cfg, s, j)
  {
    ReplayKeepsQuiet(cfg, s, j);
    if Quiet(s, j, |s.db.outbox|) { QuietReplayStands(cfg, s, j); } else { LoudReplayFalls(cfg, s, j); }
  }

  lemma LoudReplayFalls(cfg: Settings, s: World, j: JobId)
    requires Reachable(cfg, s) && InState(s, j, DeadLetter) && cfg.batchSize > 0
    requires !Quiet(Next(cfg, s, ReplayJob(j)), j, |s.db.outbox|)
    ensures CanBeUndone(cfg, s, j)
  {
    ReplayIs(cfg, s, j);
    ReachableNext(cfg, s, ReplayJob(j));
    var u, l, i := UnquietMarks(cfg, Next(cfg, s, ReplayJob(j)), j, |s.db.outbox|);
    assert Undoes(u, Listening(l, true), j, |s.db.outbox|);
  }

  lemma QuietReplayStands(cfg: Settings, s: World, j: JobId)
    requires Reachable(cfg, s) && InState(s, j, DeadLetter)
    requires Quiet(Next(cfg, s, ReplayJob(j)), j, |s.db.outbox|)
    ensures !CanBeUndone(cfg, s, j)
  {
    var t := Next(cfg, s, ReplayJob(j));
    ReplayIs(cfg, s, j);
    ReachableNext(cfg, s, ReplayJob(j));
    forall u | Leads(cfg, t, u) ensures Quiet(u, j, |s.db.outbox|) { QuietLeads(cfg, t, u, j, |s.db.outbox|); }
  }

  lemma QuietLeads(cfg: Settings, s: World, t: World, j: JobId, bound: int)
    requires Reachable(cfg, s) && Leads(cfg, s, t) && Quiet(s, j, bound) && bound <= |s.db.outbox|
    ensures Quiet(t, j, bound)
  {
    ReachableIsSafe(cfg, s);
    var ws, steps :| Path(cfg, ws, steps) && ws[0] == s && Last(ws) == t && AllPublishInWindow(steps);
    assert forall n :: 0 <= n < |steps| ==> PublishesInWindow(steps[n]);
    StaysQuiet(cfg, ws, steps, 0, |steps|, j, bound);
  }
}
