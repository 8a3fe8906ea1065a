/**
 What the platform guarantees in every run, with any pauses, deaths and expiries and with a
 key-value store that may lose entries at will.
 */
module Guarantees {
  import opened Core
  import opened Domain
  import opened Keys
  import opened Records
  import opened System
  import opened Safety
  import opened OtherSteps

  function LogIn(s: World, j: JobId): Log
    requires j in s.db.jobs
  {
    s.db.jobs[j].log
  }

  lemma JobIsOk(cfg: Settings, s: World, j: JobId)
    requires Reachable(cfg, s) && j in s.db.jobs
    ensures JobOk(cfg, s.db.jobs[j], Issued(s, j))
  {
    ReachableIsSafe(cfg, s);
    assert JobOk(cfg, s.db.jobs[j], DrawnFrom(s.issued, j));
  }

  // ----- history only grows -----

  lemma GrowsTrans(a: World, b: World, c: World)
    requires Grows(a, b) && Grows(b, c)
    ensures Grows(a, c)
  {
    forall i | 0 <= i < |a.stream| ensures SameLetter(a.stream[i], c.stream[i]) {
      assert SameLetter(a.stream[i], b.stream[i]) && SameLetter(b.stream[i], c.stream[i]);
    }
    forall j ensures Issued(a, j) <= Issued(c, j) {
      assert Issued(a, j) <= Issued(b, j) && Issued(b, j) <= Issued(c, j);
    }
  }

  /** Between any two moments of a path, history only grows. */
  lemma {:induction false} PathGrows(cfg: Settings, ws: seq<World>, steps: seq<Step>, m: nat, n: nat)
    requires Path(cfg, ws, steps) && m <= n < |ws|
    ensures Grows(ws[m], ws[n])
  {
    if m < n {
      PathGrows(cfg, ws, steps, m, n - 1);
      assert Linked(cfg, ws, steps, n - 1);
      NextGrows(cfg, ws[n - 1], steps[n - 1]);
      GrowsTrans(ws[m], ws[n - 1], ws[n]);
    }
  }

  // ----- fencing -----

  /**
   The fencing payoff: a COMPLETED, FAILED or REQUEUED is immediately preceded in its job's log by
   the STARTED of the same lease, and no other STARTED in the log is of that lease, so no other
   execution came between.
   */
  lemma FencingPayoff(cfg: Settings, s: World, j: JobId, i: nat)
    requires Reachable(cfg, s) && j in s.db.jobs && i < |LogIn(s, j)|
    requires Ends(LogIn(s, j)[i].event)
    ensures var log := LogIn(s, j);
            && i > 0 && log[i - 1].event == Started && log[i].token.Some?
            && log[i - 1].token == log[i].token && log[i - 1].attempt == log[i].attempt
            && forall k :: 0 <= k < |log| && log[k].event == Started && log[k].token == log[i].token ==> k == i - 1
  {
    JobIsOk(cfg, s, j);
    var log := LogIn(s, j);
    forall k | 0 <= k < |log| && log[k].event == Started && k != i - 1 ensures log[k].token != log[i - 1].token {
      StartsDiffer(log, k, i - 1);
    }
  }

  lemma StartsDiffer(log: Log, a: nat, b: nat)
    requires StartsOrdered(log) && a < |log| && b < |log| && a != b && log[a].event == Started
    requires log[b].event == Started
    ensures log[a].token != log[b].token
  {}

  /** Every delivery drew at most one token of its job. */
  lemma DeliveriesDrawOnce(cfg: Settings, s: World, j: JobId, a: nat, b: nat)
    requires Reachable(cfg, s) && a < |Issued(s, j)| && b < |Issued(s, j)| && a != b
    ensures Issued(s, j)[a] != Issued(s, j)[b]
  {
    ReachableIsSafe(cfg, s);
    assert IssuedOk(s, j);
    if a < b { assert Issued(s, j)[a] != Issued(s, j)[b]; }
    else { assert Issued(s, j)[b] != Issued(s, j)[a]; }
  }

  // ----- exactly once, at the record -----

  /** At most one verdict per log, and nothing after it. */
  lemma OneVerdict(cfg: Settings, s: World, j: JobId, i: nat)
    requires Reachable(cfg, s) && j in s.db.jobs && i < |LogIn(s, j)|
    requires var e := LogIn(s, j)[i].event; e == Completed || e == EventType.Failed
    ensures var log := LogIn(s, j);
            && i == |log| - 1
            && forall k :: 0 <= k < i ==> log[k].event != Completed && log[k].event != EventType.Failed
  {
    JobIsOk(cfg, s, j);
    var log := LogIn(s, j);
    VerdictIsLast(log, i);
    forall k | 0 <= k < i ensures log[k].event != Completed && log[k].event != EventType.Failed {
      if log[k].event == Completed || log[k].event == EventType.Failed { VerdictIsLast(log, k); }
    }
  }

  /** `log[i]` is the STARTED of lease `token`, accepted while the job was QUEUED or RUNNING. */
  ghost predicate AcceptedStart(log: Log, i: nat, token: int) {
    && i < |log| && log[i].event == Started && log[i].token == Some(token)
    && StandingOf(log[..i]).At? && Active(StandingOf(log[..i]).state)
  }

  lemma StartsAreAccepted(log: Log, token: int) returns (i: nat)
    requires StandingOf(log) != Corrupt && StartedBy(log, token)
    ensures AcceptedStart(log, i, token)
  {
    i :| 0 <= i < |log| && log[i].event == Started && log[i].token == Some(token);
    PrefixLegal(log, i + 1);
    assert log[..i + 1] == log[..i] + [log[i]];
    StandingAppend(log[..i], log[i]);
  }

  /** Every call of `execute` has its own accepted STARTED: no two calls share a lease. */
  lemma EveryCallHasItsStart(cfg: Settings, s: World, a: nat)
    requires Reachable(cfg, s) && a < |s.executed|
    ensures var x := s.executed[a];
            && x.job in s.db.jobs
            && (exists i :: AcceptedStart(LogIn(s, x.job), i, x.token))
            && (forall b :: 0 <= b < |s.executed| && b != a ==> s.executed[b] != x)
  {
    ReachableIsSafe(cfg, s);
    var x := s.executed[a];
    assert ExecutionOk(s, x);
    assert JobOk(cfg, s.db.jobs[x.job], Issued(s, x.job));
    var i := StartsAreAccepted(LogIn(s, x.job), x.token);
    forall b | 0 <= b < |s.executed| && b != a ensures s.executed[b] != x {
      if b < a { assert s.executed[b] != s.executed[a]; } else { assert s.executed[a] != s.executed[b]; }
    }
  }

  /** The start is there before the call: a handler about to call has it, and has not called yet. */
  lemma StartPrecedesCall(cfg: Settings, s: World, w: WorkerId)
    requires Reachable(cfg, s) && w in s.workers && s.workers[w].pc == Execute
    ensures var h := s.workers[w];
            && h.job in s.db.jobs
            && (exists i :: AcceptedStart(LogIn(s, h.job), i, h.token))
            && Execution(h.job, h.token) !in s.executed
  {
    ReachableIsSafe(cfg, s);
    var h := s.workers[w];
    assert HandlerOk(cfg, s, w);
    assert JobOk(cfg, s.db.jobs[h.job], Issued(s, h.job));
    var i := StartsAreAccepted(LogIn(s, h.job), h.token);
  }

  // ----- the row -----

  lemma {:induction false} TopTokenMonotone(a: Log, b: Log)
    requires a <= b
    ensures TopToken(a) <= TopToken(b)
  {
    if |a| < |b| {
      TopTokenMonotone(a, b[..|b| - 1]);
    } else {
      assert a == b;
    }
  }

  /** In every reachable state the whole row is the fold of the log, and the fence never goes back. */
  lemma RowIsFold(cfg: Settings, ws: seq<World>, steps: seq<Step>, m: nat, n: nat, j: JobId)
    requires IsRun(cfg, ws, steps) && m <= n < |ws| && j in ws[m].db.jobs
    ensures var before, after := ws[m], ws[n];
            && j in after.db.jobs
            && RowFolds(after.db.jobs[j])
            && LogIn(before, j) <= LogIn(after, j)
            && before.db.jobs[j].row.fence <= after.db.jobs[j].row.fence
  {
    GenesisIsSafe(cfg);
    PathGrows(cfg, ws, steps, m, n);
    RowsFold(cfg, ws, steps, m, j);
    RowsFold(cfg, ws, steps, n, j);
    TopTokenMonotone(LogIn(ws[m], j), LogIn(ws[n], j));
  }

  lemma RowsFold(cfg: Settings, ws: seq<World>, steps: seq<Step>, n: nat, j: JobId)
    requires Path(cfg, ws, steps) && Inv(cfg, ws[0]) && n < |ws| && j in ws[n].db.jobs
    ensures RowFolds(ws[n].db.jobs[j])
  {
    PathKeeps(cfg, ws, steps, n);
    assert JobOk(cfg, ws[n].db.jobs[j], DrawnFrom(ws[n].issued, j));
  }

  // ----- acknowledgements -----

  /**
   Acks are sound under every interleaving and crash: a done marker exists only for a SUCCEEDED
   job, a handler stands before an ack only when its job is SUCCEEDED, and every acked message
   belongs to a SUCCEEDED job.
   */
  lemma AcksAreSound(cfg: Settings, s: World)
    requires Reachable(cfg, s)
    ensures forall j :: DoneKey(j) in s.kv ==> InState(s, j, Succeeded)
    ensures forall w :: w in s.workers && (s.workers[w].pc == AckDuplicate || s.workers[w].pc == AckDone) ==>
              InState(s, s.workers[w].job, Succeeded)
    ensures forall i :: 0 <= i < |s.stream| && s.stream[i].fate == Acked ==> InState(s, s.stream[i].job, Succeeded)
  {
    ReachableIsSafe(cfg, s);
    forall j | DoneKey(j) in s.kv ensures InState(s, j, Succeeded) { assert EntryAlive(s, DoneKey(j)); }
    forall w | w in s.workers && (s.workers[w].pc == AckDuplicate || s.workers[w].pc == AckDone)
      ensures InState(s, s.workers[w].job, Succeeded) { assert HandlerOk(cfg, s, w); }
    forall i | 0 <= i < |s.stream| && s.stream[i].fate == Acked ensures InState(s, s.stream[i].job, Succeeded) {
      assert MessageOk(cfg, s, i);
    }
  }

  // ----- quarantine -----

  /**
   A step that deletes a message finds a DLQ copy of it already stored and its job's log already
   past a moment of DEAD_LETTER, SUCCEEDED or FAILED.
   */
  lemma CopyBeforeDelete(cfg: Settings, ws: seq<World>, steps: seq<Step>, n: nat, i: nat)
    requires IsRun(cfg, ws, steps) && n < |steps|
    requires i < |ws[n].stream| && ws[n].stream[i].fate != Deleted
    requires i < |ws[n + 1].stream| && ws[n + 1].stream[i].fate == Deleted
    ensures i in ws[n].dlq && ws[n].stream[i].job in ws[n].db.jobs && WasOver(LogIn(ws[n], ws[n].stream[i].job))
  {
    GenesisIsSafe(cfg);
    PathKeeps(cfg, ws, steps, n);
    DeletionLink(cfg, ws, steps, n, i);
    assert ListenerOk(ws[n], steps[n].listener);
  }

  lemma DeletionLink(cfg: Settings, ws: seq<World>, steps: seq<Step>, n: nat, i: nat)
    requires Path(cfg, ws, steps) && n < |steps|
    requires i < |ws[n].stream| && ws[n].stream[i].fate != Deleted
    requires i < |ws[n + 1].stream| && ws[n + 1].stream[i].fate == Deleted
    ensures steps[n].Listening? && steps[n].listener in ws[n].listeners
    ensures ws[n].listeners[steps[n].listener] == Quarantine(i, Remove)
  {
    assert Linked(cfg, ws, steps, n);
    DeleterIsListener(cfg, ws[n], steps[n], i);
  }

  lemma DeleterIsListener(cfg: Settings, s: World, step: Step, i: nat)
    requires i < |s.stream| && s.stream[i].fate != Deleted
    requires i < |Next(cfg, s, step).stream| && Next(cfg, s, step).stream[i].fate == Deleted
    ensures step.Listening? && step.listener in s.listeners && s.listeners[step.listener] == Quarantine(i, Remove)
  {
    if step.Work? && step.worker in s.workers {
      var h := s.workers[step.worker];
      WorkersNeverDelete(s, h, ActionAt(cfg, step.worker, h, step.env), i);
    } else if step.Listening? && step.listener in s.listeners {
      ListenerDeletes(s, step.listener, step.inWindow, i);
    }
  }

  lemma ListenerDeletes(s: World, l: string, inWindow: bool, i: nat)
    requires l in s.listeners && i < |s.stream| && s.stream[i].fate != Deleted
    ensures i < |ListenerStep(s, l, inWindow).stream|
    ensures ListenerStep(s, l, inWindow).stream[i].fate == Deleted ==> s.listeners[l] == Quarantine(i, Remove)
  {
    if s.listeners[l].msg < |s.stream| {
      match s.listeners[l].pc
      case Load =>
      case Copy =>
      case Mark =>
      case Remove =>
      case Settle =>
    }
  }

  lemma WorkersNeverDelete(s: World, h: Handler, a: Action, i: nat)
    requires i < |s.stream| && s.stream[i].fate != Deleted
    ensures |Effect(s, h, a).stream| == |s.stream| && Effect(s, h, a).stream[i].fate != Deleted
  {}

  // ----- the outbox -----

  /**
   Outbox conservation: a job has one outbox row per submission and replay, every message comes
   from an outbox row of an existing job and carries that job's payload.
   */
  lemma OutboxConservation(cfg: Settings, s: World)
    requires Reachable(cfg, s)
    ensures forall j :: j in s.db.jobs ==> RowsOf(s.db.outbox, j) == 1 + Count(LogIn(s, j), Replayed)
    ensures forall i :: 0 <= i < |s.stream| ==>
              && s.stream[i].job in s.db.jobs && s.stream[i].row < |s.db.outbox|
              && s.db.outbox[s.stream[i].row].job == s.stream[i].job
              && s.stream[i].payload == s.db.jobs[s.stream[i].job].row.payload
  {
    ReachableIsSafe(cfg, s);
    forall i | 0 <= i < |s.stream|
      ensures && s.stream[i].job in s.db.jobs && s.stream[i].row < |s.db.outbox|
              && s.db.outbox[s.stream[i].row].job == s.stream[i].job
              && s.stream[i].payload == s.db.jobs[s.stream[i].job].row.payload
    {
      assert MessageOk(cfg, s, i);
    }
  }

  /** So no write of a worker, and no audit write of a quarantine, ever finds its job missing. */
  lemma NoJobIsMissing(cfg: Settings, s: World)
    requires Reachable(cfg, s)
    ensures forall w :: w in s.workers ==> s.workers[w].job in s.db.jobs
    ensures forall l :: l in s.listeners ==>
              s.listeners[l].msg < |s.stream| && s.stream[s.listeners[l].msg].job in s.db.jobs
  {
    ReachableIsSafe(cfg, s);
    forall w | w in s.workers ensures s.workers[w].job in s.db.jobs { assert HandlerOk(cfg, s, w); }
    forall l | l in s.listeners
      ensures s.listeners[l].msg < |s.stream| && s.stream[s.listeners[l].msg].job in s.db.jobs
    {
      assert ListenerOk(s, l);
      assert MessageOk(cfg, s, s.listeners[l].msg);
    }
  }

  /** A row marked published was accepted by the broker, whichever relays died on the way. */
  lemma PublishedWasAccepted(cfg: Settings, s: World, r: nat)
    requires Reachable(cfg, s) && r < |s.db.outbox| && s.db.outbox[r].published
    ensures Known(s.stream, r)
  {
    ReachableIsSafe(cfg, s);
  }

  ghost predicate OneLetterPerRow(stream: seq<Message>) {
    forall i, k :: 0 <= i < k < |stream| ==> stream[i].row != stream[k].row
  }

  /** Inside the dedupe window the stream never receives two messages for one row. */
  lemma {:induction false} NoDuplicatePublication(cfg: Settings, ws: seq<World>, steps: seq<Step>, n: nat)
    requires IsRun(cfg, ws, steps) && n < |ws|
    requires forall i :: 0 <= i < |steps| && steps[i].RelayWork? ==> steps[i].inWindow
    ensures OneLetterPerRow(ws[n].stream)
  {
    if n > 0 {
      NoDuplicatePublication(cfg, ws, steps, n - 1);
      assert Linked(cfg, ws, steps, n - 1);
      NextGrows(cfg, ws[n - 1], steps[n - 1]);
      PublicationStep(cfg, ws[n - 1], steps[n - 1]);
    }
  }

  lemma PublicationStep(cfg: Settings, s: World, step: Step)
    requires OneLetterPerRow(s.stream) && (step.RelayWork? ==> step.inWindow) && Grows(s, Next(cfg, s, step))
    ensures OneLetterPerRow(Next(cfg, s, step).stream)
  {
    var t := Next(cfg, s, step);
    StreamLength(cfg, s, step);
    forall i, k | 0 <= i < k < |t.stream| ensures t.stream[i].row != t.stream[k].row {
      assert SameLetter(s.stream[i], t.stream[i]);
      if k < |s.stream| { assert SameLetter(s.stream[k], t.stream[k]); }
    }
  }

  /** Only a relay adds to the stream, one message at a time. */
  lemma StreamLength(cfg: Settings, s: World, step: Step)
    ensures var t := Next(cfg, s, step);
            || |t.stream| == |s.stream|
            || (&& step.RelayWork? && step.relay in s.relays
                && var r := s.relays[step.relay];
                   && r.sent < |r.batch| && r.batch[r.sent] < |s.db.outbox|
                   && t.stream[..|s.stream|] == s.stream && |t.stream| == |s.stream| + 1
                   && t.stream[|s.stream|].row == r.batch[r.sent]
                   && !(step.inWindow && Known(s.stream, r.batch[r.sent])))
  {
    if step.Work? && step.worker in s.workers {
      var h := s.workers[step.worker];
      WorkersKeepLength(s, h, ActionAt(cfg, step.worker, h, step.env));
    }
  }

  lemma WorkersKeepLength(s: World, h: Handler, a: Action)
    ensures |Effect(s, h, a).stream| == |s.stream|
  {}

  // ----- ownership of keys -----

  /** No handler deletes or overwrites a lease, claim or marker that another worker stored. */
  lemma NobodyTouchesMine(cfg: Settings, s: World, v: WorkerId, env: Env, key: Key)
    requires v in s.workers && key in s.kv && s.kv[key].value.worker != v
    ensures var t := WorkerStep(cfg, s, v, env); key in t.kv && t.kv[key] == s.kv[key]
  {
    var h := s.workers[v];
    var a := ActionAt(cfg, v, h, env);
    DropsOwn(cfg, v, h, env);
    assert key in Effect(s, h, a).kv && Effect(s, h, a).kv[key] == s.kv[key];
  }

  lemma DropsOwn(cfg: Settings, v: WorkerId, h: Handler, env: Env)
    ensures var a := ActionAt(cfg, v, h, env); a.Drop? ==> a.owner.worker == v
  {}
}
