/** Every step keeps the safety invariant. */
module Preservation {
  import opened Core
  import opened Domain
  import opened Keys
  import opened Records
  import opened System
  import opened Safety

  // ----- one job's record under one write -----

  /** Why fencing pays: an accepted closing write carries the token of the log's last STARTED. */
  lemma ClosesItsOwn(cfg: Settings, job: Job, issued: seq<Delivery>, w: Write)
    requires JobOk(cfg, job, issued) && EntryOk(cfg, EventOf(w), issued)
    requires Ends(w.event) && StartedBy(job.log, w.token.value)
    requires Judge(job.row, w) == Accepted
    ensures job.log != []
    ensures var last := job.log[|job.log| - 1];
            last.event == Started && last.token == w.token && last.attempt == w.attempt
  {
    var log := job.log;
    var i :| 0 <= i < |log| && log[i].event == Started && log[i].token == Some(w.token.value);
    TopTokenBounds(log, i);
    assert EntryOk(cfg, log[|log| - 1], issued);
  }

  lemma PairedKeeps(log: Log, e: JobEvent)
    requires Paired(log)
    requires Ends(e.event) ==>
      && log != [] && e.token.Some? && log[|log| - 1].event == Started
      && log[|log| - 1].token == e.token && log[|log| - 1].attempt == e.attempt
    ensures Paired(log + [e])
  {
    var log' := log + [e];
    forall i | 0 <= i < |log'| && Ends(log'[i].event)
      ensures && 0 < i && log'[i - 1].event == Started && log'[i].token.Some?
              && log'[i - 1].token == log'[i].token && log'[i - 1].attempt == log'[i].attempt
    {
      if i < |log| {
        assert log'[i] == log[i];
        assert Ends(log[i].event);
        assert 0 < i && log'[i - 1] == log[i - 1];
      }
    }
  }

  lemma StartsKeep(cfg: Settings, job: Job, issued: seq<Delivery>, w: Write)
    requires JobOk(cfg, job, issued) && EntryOk(cfg, EventOf(w), issued)
    requires w.event == Started ==> !Carries(job.log, w.token.value)
    requires Judge(job.row, w) == Accepted
    ensures StartsOrdered(job.log + [EventOf(w)])
  {
    var log := job.log;
    if w.event == Started {
      forall i | 0 <= i < |log| && log[i].event == Started
        ensures log[i].token.Some? && log[i].token.value < w.token.value
      {
        assert EntryOk(cfg, log[i], issued);
        TopTokenBounds(log, i);
        assert log[i].token != Some(w.token.value);
      }
    }
  }

  lemma WriteKeepsJob(cfg: Settings, job: Job, issued: seq<Delivery>, w: Write)
    requires JobOk(cfg, job, issued) && Honest(w) && EntryOk(cfg, EventOf(w), issued)
    requires w.event == Started ==> !Carries(job.log, w.token.value)
    requires Ends(w.event) ==> StartedBy(job.log, w.token.value)
    ensures JobOk(cfg, Written(job, w), issued)
  {
    if Judge(job.row, w) == Accepted {
      WrittenFolds(job, w);
      StartsKeep(cfg, job, issued, w);
      if Ends(w.event) { ClosesItsOwn(cfg, job, issued, w); }
      PairedKeeps(job.log, EventOf(w));
    }
  }

  lemma DrawKeepsJob(cfg: Settings, job: Job, issued: seq<Delivery>, more: seq<Delivery>)
    requires JobOk(cfg, job, issued)
    ensures JobOk(cfg, job, issued + more)
  {
    forall i | 0 <= i < |job.log| ensures EntryOk(cfg, job.log[i], issued + more) {
      assert EntryOk(cfg, job.log[i], issued);
    }
  }

  lemma NewJobOk(cfg: Settings, key: string, payload: Payload)
    ensures JobOk(cfg, Job(NewRow(key, payload), FirstEvents), [])
  {
    NewJobFolds(key, payload);
  }

  /** A finished job stays as it is: no extension of its log is legal. */
  lemma FinishedStays(a: Job, b: Job)
    requires RowFolds(a) && RowFolds(b) && a.log <= b.log && IsTerminal(a.row.state)
    ensures b.row.state == a.row.state
  {
    var more := b.log[|a.log|..];
    assert b.log == a.log + more;
    if more != [] {
      TerminalIsForever(a.log, more);
    } else {
      assert a.log == b.log;
    }
  }

  lemma TerminalStays(cfg: Settings, s: World, t: World, j: JobId)
    requires JobsOk(cfg, s) && JobsOk(cfg, t) && LogsGrow(s.db.jobs, t.db.jobs)
    requires j in s.db.jobs && IsTerminal(s.db.jobs[j].row.state)
    ensures InState(t, j, s.db.jobs[j].row.state)
  {
    assert JobOk(cfg, s.db.jobs[j], Issued(s, j)) && JobOk(cfg, t.db.jobs[j], Issued(t, j));
    FinishedStays(s.db.jobs[j], t.db.jobs[j]);
  }

  lemma WasOverStays(a: Log, b: Log)
    requires a <= b && WasOver(a)
    ensures WasOver(b)
  {
    var n :| 0 <= n <= |a| && Over(StandingOf(a[..n]));
    assert a[..n] == b[..n];
  }

  // ----- the bystanders of a step -----

  /** Nothing of what the handler of `v` counts as not yet done has been done behind its back. */
  ghost predicate Unhurt(s: World, t: World, v: WorkerId)
    requires v in s.workers
  {
    var h := s.workers[v];
    && h.job in s.db.jobs && h.job in t.db.jobs
    && (h.token == 0 && h.delivery !in Issued(s, h.job) ==> h.delivery !in Issued(t, h.job))
    && (h.token > 0 && !Carries(s.db.jobs[h.job].log, h.token) ==> !Carries(t.db.jobs[h.job].log, h.token))
    && (h.token > 0 && Execution(h.job, h.token) !in s.executed ==> Execution(h.job, h.token) !in t.executed)
  }

  lemma ProgressKeeps(cfg: Settings, h: Handler, a: Job, b: Job, x: seq<Execution>, y: seq<Execution>)
    requires ProgressOk(cfg, h, a, x) && RowFolds(a) && RowFolds(b) && a.log <= b.log && h.token > 0
    requires !Carries(a.log, h.token) ==> !Carries(b.log, h.token)
    requires Execution(h.job, h.token) !in x ==> Execution(h.job, h.token) !in y
    ensures ProgressOk(cfg, h, b, y)
  {
    if IsTerminal(a.row.state) { FinishedStays(a, b); }
    if StartedBy(a.log, h.token) { StartedStays(a.log, b.log, h.token); }
  }

  lemma HandlersJob(cfg: Settings, s: World, t: World, j: JobId)
    requires JobsOk(cfg, s) && JobsOk(cfg, t) && j in s.db.jobs && j in t.db.jobs
    ensures RowFolds(s.db.jobs[j]) && RowFolds(t.db.jobs[j])
  {
    assert JobOk(cfg, s.db.jobs[j], DrawnFrom(s.issued, j)) && JobOk(cfg, t.db.jobs[j], DrawnFrom(t.issued, j));
  }

  lemma BystanderKeeps(cfg: Settings, s: World, t: World, v: WorkerId)
    requires v in s.workers && v in t.workers && t.workers[v] == s.workers[v]
    requires HandlerOk(cfg, s, v) && Grows(s, t) && Unhurt(s, t, v)
    requires RowFolds(s.db.jobs[s.workers[v].job]) && RowFolds(t.db.jobs[s.workers[v].job])
    ensures HandlerOk(cfg, t, v)
  {
    var h := s.workers[v];
    assert Issued(s, h.job) <= Issued(t, h.job);
    assert SameLetter(s.stream[h.delivery.msg], t.stream[h.delivery.msg]);
    if h.token > 0 {
      ProgressKeeps(cfg, h, s.db.jobs[h.job], t.db.jobs[h.job], s.executed, t.executed);
    } else if AfterSuccess(h.pc) {
      FinishedStays(s.db.jobs[h.job], t.db.jobs[h.job]);
    }
  }

  lemma StartedStays(a: Log, b: Log, token: int)
    requires a <= b && StartedBy(a, token)
    ensures StartedBy(b, token)
  {
    var i :| 0 <= i < |a| && a[i].event == Started && a[i].token == Some(token);
    assert b[i] == a[i];
  }

  lemma LetterKeeps(cfg: Settings, s: World, t: World, i: nat)
    requires i < |s.stream| && MessageOk(cfg, s, i) && Grows(s, t) && JobsOk(cfg, s) && JobsOk(cfg, t)
    requires i < |t.stream| && t.stream[i].deliveries <= cfg.maxDeliver
    requires t.stream[i].fate == s.stream[i].fate || Stored(t.stream[i].fate) || t.stream[i].fate == Termed
    ensures MessageOk(cfg, t, i)
  {
    var m := s.stream[i];
    assert SameLetter(m, t.stream[i]);
    if IsTerminal(s.db.jobs[m.job].row.state) { TerminalStays(cfg, s, t, m.job); }
    if WasOver(s.db.jobs[m.job].log) { WasOverStays(s.db.jobs[m.job].log, t.db.jobs[m.job].log); }
  }

  // ----- putting a step together -----

  ghost predicate MessagesSettled(cfg: Settings, s: World, t: World) {
    s.stream == t.stream ||
    forall i :: 0 <= i < |t.stream| ==>
      || MessageOk(cfg, t, i)
      || (&& i < |s.stream|
          && (t.stream[i].deliveries == s.stream[i].deliveries || t.stream[i].deliveries <= cfg.maxDeliver)
          && (t.stream[i].fate == s.stream[i].fate || Stored(t.stream[i].fate) || t.stream[i].fate == Termed))
  }

  ghost predicate HandlersSettled(cfg: Settings, s: World, t: World) {
    forall v :: v in t.workers ==>
      || (v in s.workers && t.workers[v] == s.workers[v] && Unhurt(s, t, v))
      || HandlerOk(cfg, t, v)
  }

  ghost predicate EntriesSettled(s: World, t: World) {
    (s.kv == t.kv && s.now == t.now) ||
    forall k :: k in t.kv ==>
      || (k in s.kv && t.kv[k] == s.kv[k] && t.now < s.kv[k].expiresAt)
      || EntryAlive(t, k)
  }

  ghost predicate ListenersSettled(s: World, t: World) {
    s.listeners == t.listeners ||
    forall l :: l in t.listeners ==> (l in s.listeners && t.listeners[l] == s.listeners[l]) || ListenerOk(t, l)
  }

  ghost predicate RelaysSettled(s: World, t: World) {
    s.relays == t.relays ||
    forall id :: id in t.relays ==> (id in s.relays && t.relays[id] == s.relays[id]) || RelayOk(t, id)
  }

  ghost predicate OutboxSettled(s: World, t: World) {
    s.db.outbox == t.db.outbox ||
    forall r :: 0 <= r < |t.db.outbox| && t.db.outbox[r].published ==>
      (r < |s.db.outbox| && s.db.outbox[r].published) || Known(t.stream, r)
  }

  lemma KnownStays(a: seq<Message>, b: seq<Message>, row: nat)
    requires StreamGrows(a, b) && Known(a, row)
    ensures Known(b, row)
  {
    var m :| 0 <= m < |a| && a[m].row == row;
    assert SameLetter(a[m], b[m]);
  }

  lemma IssuedKeeps(s: World, t: World, j: JobId)
    requires IssuedOk(s, j) && StreamGrows(s.stream, t.stream) && Issued(t, j) == Issued(s, j)
    ensures IssuedOk(t, j)
  {
    forall i | 0 <= i < |Issued(s, j)| ensures DeliveryOk(t, j, Issued(s, j)[i]) {
      assert DeliveryOk(s, j, Issued(s, j)[i]);
      var m := Issued(s, j)[i].msg;
      assert SameLetter(s.stream[m], t.stream[m]);
    }
  }

  lemma ExecutedKeeps(s: World, t: World)
    requires ExecutedOk(s) && Grows(s, t) && t.executed == s.executed
    ensures ExecutedOk(t)
  {
    forall i | 0 <= i < |t.executed| ensures ExecutionOk(t, t.executed[i]) {
      var x := s.executed[i];
      assert ExecutionOk(s, x);
      StartedStays(s.db.jobs[x.job].log, t.db.jobs[x.job].log, x.token);
      assert Issued(s, x.job) <= Issued(t, x.job);
    }
  }

  lemma ListenerStays(s: World, t: World, l: string)
    requires l in s.listeners && ListenerOk(s, l) && Grows(s, t)
    requires l in t.listeners && t.listeners[l] == s.listeners[l]
    ensures ListenerOk(t, l)
  {
    var q := s.listeners[l];
    assert SameLetter(s.stream[q.msg], t.stream[q.msg]);
    if q.pc == Remove {
      var j := s.stream[q.msg].job;
      WasOverStays(s.db.jobs[j].log, t.db.jobs[j].log);
    }
  }

  lemma RelayStays(s: World, t: World, id: string)
    requires id in s.relays && RelayOk(s, id) && Grows(s, t)
    requires id in t.relays && t.relays[id] == s.relays[id]
    ensures RelayOk(t, id)
  {
    forall i | 0 <= i < s.relays[id].sent ensures Known(t.stream, s.relays[id].batch[i]) {
      KnownStays(s.stream, t.stream, s.relays[id].batch[i]);
    }
  }

  ghost predicate CountersSettled(s: World, t: World) {
    && (s.issued == t.issued || forall j :: Issued(t, j) == Issued(s, j) || IssuedOk(t, j))
    && (t.executed == s.executed || ExecutedOk(t))
  }

  /** The step grows the world, keeps the records good, and whatever it touched is good. */
  ghost predicate StepSettled(cfg: Settings, s: World, t: World) {
    && Grows(s, t) && Coherent(t.db) && JobsOk(cfg, t)
    && MessagesSettled(cfg, s, t) && HandlersSettled(cfg, s, t) && Apart(t)
    && EntriesSettled(s, t) && ListenersSettled(s, t) && RelaysSettled(s, t) && OutboxSettled(s, t)
    && CountersSettled(s, t)
  }

  /** Then all is good. */
  lemma Assemble(cfg: Settings, s: World, t: World)
    requires Inv(cfg, s) && StepSettled(cfg, s, t)
    ensures Inv(cfg, t)
  {
    forall i | 0 <= i < |t.stream| ensures MessageOk(cfg, t, i) {
      if !MessageOk(cfg, t, i) {
        assert MessageOk(cfg, s, i);
        LetterKeeps(cfg, s, t, i);
      }
    }
    forall v | v in t.workers ensures HandlerOk(cfg, t, v) {
      if !HandlerOk(cfg, t, v) {
        HandlersJob(cfg, s, t, s.workers[v].job);
        BystanderKeeps(cfg, s, t, v);
      }
    }
    forall k | k in t.kv ensures EntryAlive(t, k) {
      if k in s.kv && t.kv[k] == s.kv[k] {
        assert EntryAlive(s, k);
        if k.DoneKey? { TerminalStays(cfg, s, t, k.job); }
      }
    }
    forall j ensures IssuedOk(t, j) { if Issued(t, j) == Issued(s, j) { IssuedKeeps(s, t, j); } }
    if t.executed == s.executed { ExecutedKeeps(s, t); }
    forall l | l in t.listeners ensures ListenerOk(t, l) {
      if l in s.listeners && t.listeners[l] == s.listeners[l] { ListenerStays(s, t, l); }
    }
    forall id | id in t.relays ensures RelayOk(t, id) {
      if id in s.relays && t.relays[id] == s.relays[id] { RelayStays(s, t, id); }
    }
    forall r | 0 <= r < |t.db.outbox| && t.db.outbox[r].published ensures Known(t.stream, r) {
      if r < |s.db.outbox| && s.db.outbox[r].published { KnownStays(s.stream, t.stream, r); }
    }
  }
}
