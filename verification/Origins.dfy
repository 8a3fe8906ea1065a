/**
 Where a job's key and payload come from, and what the payload decides. In every run they are those of
 the one submission that made the job, in the row, in every outbox row and in every message; and a job
 submitted with the poison flag, and no other, is turned back before any handling.
 */
module Origins {
  import opened Core
  import opened Domain
  import opened Keys
  import opened Records
  import opened System
  import opened Safety
  import opened Frames
  import opened OtherSteps
  import opened Guarantees
  import opened NoLoss
  import opened Ledger

  // ----- the submission -----

  /** Step k submits job j under a key and an id that are both new. */
  ghost predicate SubmittedAt(ws: seq<World>, steps: seq<Step>, k: nat, j: JobId, key: string, payload: Payload) {
    && k < |steps| && k < |ws| && steps[k] == SubmitJob(j, key, payload)
    && j !in ws[k].db.jobs && key !in ws[k].db.byKey
  }

  lemma IdentityStays(cfg: Settings, s: World, step: Step, j: JobId)
    requires j in s.db.jobs
    ensures var t := Next(cfg, s, step);
            && j in t.db.jobs && t.db.jobs[j].row.key == s.db.jobs[j].row.key
            && t.db.jobs[j].row.payload == s.db.jobs[j].row.payload
  {
    JobMove(cfg, s, step, j);
  }

  lemma {:induction false} SubmissionOf(cfg: Settings, ws: seq<World>, steps: seq<Step>, n: nat, j: JobId)
      returns (k: nat)
    requires IsRun(cfg, ws, steps) && n < |ws| && j in ws[n].db.jobs
    ensures k < n && SubmittedAt(ws, steps, k, j, ws[n].db.jobs[j].row.key, ws[n].db.jobs[j].row.payload)
  {
    assert Linked(cfg, ws, steps, n - 1);
    if j in ws[n - 1].db.jobs {
      k := SubmissionOf(cfg, ws, steps, n - 1, j);
      IdentityStays(cfg, ws[n - 1], steps[n - 1], j);
    } else {
      k := n - 1;
      NewJobIs(cfg, ws[n - 1], steps[n - 1], j);
    }
  }

  /** After its submission the job is there, so no second step submits it. */
  lemma SubmittedOnce(
      cfg: Settings, ws: seq<World>, steps: seq<Step>, k: nat, i: nat, j: JobId,
      key: string, payload: Payload, other: string, body: Payload)
    requires IsRun(cfg, ws, steps) && k < i && SubmittedAt(ws, steps, k, j, key, payload)
    ensures !SubmittedAt(ws, steps, i, j, other, body)
  {
    assert Linked(cfg, ws, steps, k);
    assert j in ws[k + 1].db.jobs;
    if i < |ws| { PathGrows(cfg, ws, steps, k + 1, i); }
  }

  /** Everything that carries a payload on behalf of job j carries this one. */
  ghost predicate CarriesPayload(s: World, j: JobId, payload: Payload) {
    && j in s.db.jobs && s.db.jobs[j].row.payload == payload
    && (forall r :: 0 <= r < |s.db.outbox| && s.db.outbox[r].job == j ==> s.db.outbox[r].payload == payload)
    && (forall i :: 0 <= i < |s.stream| && s.stream[i].job == j ==> s.stream[i].payload == payload)
  }

  lemma PayloadIsCarried(cfg: Settings, s: World, j: JobId)
    requires Coherent(s.db) && MessagesOk(cfg, s) && j in s.db.jobs
    ensures CarriesPayload(s, j, s.db.jobs[j].row.payload)
  {
    forall i | 0 <= i < |s.stream| && s.stream[i].job == j ensures s.stream[i].payload == s.db.jobs[j].row.payload {
      assert MessageOk(cfg, s, i);
    }
  }

  /**
   In every run exactly one step submitted a job, under the key that its row has, and row, outbox rows
   and messages of the job carry the payload submitted then.
   */
  lemma PayloadIsSubmitted(cfg: Settings, ws: seq<World>, steps: seq<Step>, n: nat, j: JobId)
    requires IsRun(cfg, ws, steps) && n < |ws| && j in ws[n].db.jobs
    ensures exists k: nat, payload ::
              && k < n && SubmittedAt(ws, steps, k, j, ws[n].db.jobs[j].row.key, payload)
              && CarriesPayload(ws[n], j, payload)
              && forall i: nat, key, body :: SubmittedAt(ws, steps, i, j, key, body) ==> i == k
  {
    var k := SubmissionOf(cfg, ws, steps, n, j);
    var key, payload := ws[n].db.jobs[j].row.key, ws[n].db.jobs[j].row.payload;
    GenesisIsSafe(cfg);
    PathKeeps(cfg, ws, steps, n);
    PayloadIsCarried(cfg, ws[n], j);
    forall i: nat, other, body | SubmittedAt(ws, steps, i, j, other, body) ensures i == k {
      if k < i { SubmittedOnce(cfg, ws, steps, k, i, j, key, payload, other, body); }
      if i < k { SubmittedOnce(cfg, ws, steps, i, k, j, other, body, key, payload); }
    }
  }

  // ----- the poison flag -----

  ghost predicate IsPoison(s: World, j: JobId) {
    j in s.db.jobs && s.db.jobs[j].row.payload.poison
  }

  /** A handler turns its message back at once exactly when its job is poison. */
  ghost predicate TurnsBack(s: World, w: WorkerId)
    requires w in s.workers
  {
    s.workers[w].job in s.db.jobs && (s.workers[w].pc == NakPoison <==> IsPoison(s, s.workers[w].job))
  }

  /** Nothing but its submission, its quarantines and its replays is in a poison job's log. */
  ghost predicate Unhandled(log: Log) {
    forall i :: 0 <= i < |log| ==> log[i].event != Started && !Ends(log[i].event)
  }

  ghost predicate PoisonOk(s: World) {
    && (forall w :: w in s.workers ==> TurnsBack(s, w))
    && (forall j :: IsPoison(s, j) ==> Unhandled(s.db.jobs[j].log))
  }

  lemma NoWayToPoison(cfg: Settings, h: Handler, reply: Reply)
    ensures Onward(cfg, h, reply) != Some(NakPoison)
    ensures h.pc == NakPoison ==> Onward(cfg, h, reply) == None
  {}

  lemma WorkTurnsBack(cfg: Settings, s: World, v: WorkerId, env: Env, w: WorkerId)
    requires v in s.workers && w in WorkerStep(cfg, s, v, env).workers && (w in s.workers ==> TurnsBack(s, w))
    requires w in s.workers ==> IdentityKept(s, WorkerStep(cfg, s, v, env), s.workers[w].job)
    ensures TurnsBack(WorkerStep(cfg, s, v, env), w)
  {
    if v == w {
      WorkerKeepsJob(cfg, s, w, env);
      NoWayToPoison(cfg, s.workers[w], Ask(s, s.workers[w], ActionAt(cfg, w, s.workers[w], env), env));
    } else {
      WorkerMovesItself(cfg, s, v, env, w);
    }
  }

  ghost predicate IdentityKept(s: World, t: World, j: JobId) {
    j in s.db.jobs ==> j in t.db.jobs && t.db.jobs[j].row.payload == s.db.jobs[j].row.payload
  }

  lemma IdentityIsKept(cfg: Settings, s: World, step: Step, j: JobId)
    ensures IdentityKept(s, Next(cfg, s, step), j)
  {
    if j in s.db.jobs { IdentityStays(cfg, s, step, j); }
  }

  lemma HandlerTurnsBack(cfg: Settings, s: World, step: Step, w: WorkerId)
    requires Coherent(s.db) && MessagesOk(cfg, s) && (w in s.workers ==> TurnsBack(s, w))
    requires w in Next(cfg, s, step).workers
    ensures TurnsBack(Next(cfg, s, step), w)
  {
    if w in s.workers { IdentityIsKept(cfg, s, step, s.workers[w].job); }
    if step.Work? {
      WorkUnfolds(cfg, s, step.worker, step.env);
      if step.worker in s.workers { WorkTurnsBack(cfg, s, step.worker, step.env, w); }
    } else {
      WorkersFrame(cfg, s, step, w);
      if step.Deliver? && step.worker == w && CanDeliver(cfg, s, w, step.msg) {
        assert MessageOk(cfg, s, step.msg);
        IdentityIsKept(cfg, s, step, s.stream[step.msg].job);
      }
    }
  }

  lemma PoisonStaysUnhandled(cfg: Settings, s: World, step: Step, j: JobId)
    requires PoisonOk(s) && IsPoison(Next(cfg, s, step), j)
    ensures Unhandled(Next(cfg, s, step).db.jobs[j].log)
  {
    if j in s.db.jobs {
      JobMove(cfg, s, step, j);
      PoisonEntered(s, Next(cfg, s, step), step, j);
    } else {
      NewJobIs(cfg, s, step, j);
    }
  }

  lemma PoisonEntered(s: World, t: World, step: Step, j: JobId)
    requires PoisonOk(s) && j in s.db.jobs && JobMoves(s, t, step, j) && IsPoison(t, j)
    ensures Unhandled(t.db.jobs[j].log)
  {
    if t.db.jobs[j] != s.db.jobs[j] {
      var w :| WritesTo(s, step, j, w) && Judge(s.db.jobs[j].row, w) == Accepted
               && t.db.jobs[j] == Written(s.db.jobs[j], w);
      assert IsPoison(s, j);
      assert forall v :: v in s.workers ==> TurnsBack(s, v);
    }
  }

  lemma PoisonNext(cfg: Settings, s: World, step: Step)
    requires Coherent(s.db) && MessagesOk(cfg, s) && PoisonOk(s)
    ensures PoisonOk(Next(cfg, s, step))
  {
    var t := Next(cfg, s, step);
    forall w | w in t.workers ensures TurnsBack(t, w) { HandlerTurnsBack(cfg, s, step, w); }
    forall j | IsPoison(t, j) ensures Unhandled(t.db.jobs[j].log) { PoisonStaysUnhandled(cfg, s, step, j); }
  }

  lemma PoisonLink(cfg: Settings, ws: seq<World>, steps: seq<Step>, n: nat)
    requires IsRun(cfg, ws, steps) && n < |steps| && PoisonOk(ws[n])
    ensures PoisonOk(ws[n + 1])
  {
    GenesisIsSafe(cfg);
    PathKeeps(cfg, ws, steps, n);
    PoisonNext(cfg, ws[n], steps[n]);
    assert Linked(cfg, ws, steps, n);
  }

  lemma {:induction false} RunPoisonOk(cfg: Settings, ws: seq<World>, steps: seq<Step>, n: nat)
    requires IsRun(cfg, ws, steps) && n < |ws|
    ensures PoisonOk(ws[n])
  {
    if n > 0 {
      RunPoisonOk(cfg, ws, steps, n - 1);
      PoisonLink(cfg, ws, steps, n - 1);
    }
  }

  /**
   A poison job is never handled: in every reachable state its log has no STARTED and no closing event,
   no call of `execute` was made for it, it is QUEUED or DEAD_LETTER, and its handlers are about to turn
   it back. A handler of any other job is past that test.
   */
  lemma PoisonIsNeverHandled(cfg: Settings, s: World, j: JobId)
    requires Reachable(cfg, s) && j in s.db.jobs
    ensures forall w :: w in s.workers && s.workers[w].job == j ==>
              (s.workers[w].pc == NakPoison <==> s.db.jobs[j].row.payload.poison)
    ensures s.db.jobs[j].row.payload.poison ==>
              && Unhandled(LogIn(s, j)) && (InState(s, j, Queued) || InState(s, j, DeadLetter))
              && forall x :: x in s.executed ==> x.job != j
  {
    var ws, steps :| IsRun(cfg, ws, steps) && Last(ws) == s;
    RunPoisonOk(cfg, ws, steps, |ws| - 1);
    forall w | w in s.workers && s.workers[w].job == j
      ensures s.workers[w].pc == NakPoison <==> s.db.jobs[j].row.payload.poison { assert TurnsBack(s, w); }
    if s.db.jobs[j].row.payload.poison {
      assert IsPoison(s, j);
      PoisonRecord(cfg, s, j);
    }
  }

  lemma PoisonRecord(cfg: Settings, s: World, j: JobId)
    requires Reachable(cfg, s) && j in s.db.jobs && Unhandled(LogIn(s, j))
    ensures InState(s, j, Queued) || InState(s, j, DeadLetter)
    ensures forall x :: x in s.executed ==> x.job != j
  {
    JobIsOk(cfg, s, j);
    UnhandledState(s.db.jobs[j]);
    ReachableIsSafe(cfg, s);
    NotExecuted(s, j);
  }

  lemma NotExecuted(s: World, j: JobId)
    requires ExecutedOk(s) && j in s.db.jobs && Unhandled(LogIn(s, j))
    ensures forall x :: x in s.executed ==> x.job != j
  {
    forall x | x in s.executed ensures x.job != j {
      var i :| 0 <= i < |s.executed| && s.executed[i] == x;
      assert ExecutionOk(s, x);
    }
  }

  lemma UnhandledState(job: Job)
    requires RowFolds(job) && RunningIsLast(job) && job.row.state != JobState.Submitted && Unhandled(job.log)
    ensures job.row.state == Queued || job.row.state == DeadLetter
  {
    NoCount(job.log, Completed);
    NoCount(job.log, EventType.Failed);
    LegalShape(job.log);
  }

  lemma {:induction false} NoCount(log: Log, event: EventType)
    requires forall i :: 0 <= i < |log| ==> log[i].event != event
    ensures Count(log, event) == 0
  {
    if log != [] { NoCount(log[..|log| - 1], event); }
  }
}
