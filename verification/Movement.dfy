/**
 What can still happen to a job. Each lemma builds a path, with every publication inside the dedupe
 window: an alive message can be exhausted and its quarantine brought to its audit, a row that the
 broker has not seen can be published, and a handler that may still write can be brought to its write.
 */
module Movement {
  import opened Core
  import opened Domain
  import opened Keys
  import opened Records
  import opened System
  import opened Safety
  import opened WorkerSteps
  import opened OtherSteps
  import opened Guarantees
  import opened NoLoss
  import opened Recovery
  import opened Relays
  import opened OldLives

  lemma {:induction false} PathReachable(cfg: Settings, ws: seq<World>, steps: seq<Step>, n: nat)
    requires Path(cfg, ws, steps) && n < |ws| && Reachable(cfg, ws[0])
    ensures Reachable(cfg, ws[n])
  {
    if n > 0 {
      PathReachable(cfg, ws, steps, n - 1);
      ReachableNext(cfg, ws[n - 1], steps[n - 1]);
      assert Linked(cfg, ws, steps, n - 1);
    }
  }

  lemma LeadsReachable(cfg: Settings, s: World, t: World)
    requires Reachable(cfg, s) && Leads(cfg, s, t)
    ensures Reachable(cfg, t)
  {
    var ws, steps :| Path(cfg, ws, steps) && ws[0] == s && Last(ws) == t && AllPublishInWindow(steps);
    PathReachable(cfg, ws, steps, |ws| - 1);
  }

  lemma Step1(cfg: Settings, s: World, t: World, step: Step) returns (u: World)
    requires Leads(cfg, s, t) && PublishesInWindow(step)
    ensures Leads(cfg, s, u) && u == Next(cfg, t, step)
  {
    LeadsOn(cfg, s, t, step);
    u := Next(cfg, t, step);
  }

  // ----- a quarantine can be brought to its audit -----

  /** The quarantine of message i by l stands before its audit write, and nothing else has changed. */
  ghost predicate BeforeAudit(s: World, u: World, l: string, i: nat) {
    && u.db == s.db && i < |s.stream| && i < |u.stream| && u.stream[i].job == s.stream[i].job
    && u.stream[i].row == s.stream[i].row && l in u.listeners && u.listeners[l] == Quarantine(i, Mark)
  }

  lemma FromCopy(cfg: Settings, s: World, t: World, l: string, i: nat) returns (u: World)
    requires Leads(cfg, s, t) && i < |t.stream| && l in t.listeners && t.listeners[l] == Quarantine(i, Copy)
    ensures Leads(cfg, s, u) && BeforeAudit(t, u, l, i)
  {
    u := Step1(cfg, s, t, Listening(l, true));
    ListenUnfolds(cfg, t, l, true);
  }

  lemma FromLoad(cfg: Settings, s: World, t: World, l: string, i: nat) returns (u: World)
    requires Leads(cfg, s, t) && i < |t.stream| && l in t.listeners && t.listeners[l] == Quarantine(i, Load)
    requires Stored(t.stream[i].fate)
    ensures Leads(cfg, s, u) && BeforeAudit(t, u, l, i)
  {
    u := Step1(cfg, s, t, Listening(l, true));
    ListenUnfolds(cfg, t, l, true);
    assert u == Listen(t, l, i, Copy);
    u := FromCopy(cfg, s, u, l, i);
  }

  /** A quarantine that has its audit ahead of it can be brought before it. */
  lemma QuarantineMarks(cfg: Settings, s: World, l: string) returns (u: World)
    requires l in s.listeners && s.listeners[l].msg < |s.stream| && WillMark(s, s.listeners[l])
    ensures Leads(cfg, s, u) && BeforeAudit(s, u, l, s.listeners[l].msg)
  {
    LeadsNowhere(cfg, s);
    u := s;
    if s.listeners[l].pc == Copy { u := FromCopy(cfg, s, s, l, s.listeners[l].msg); }
    if s.listeners[l].pc == Load { u := FromLoad(cfg, s, s, l, s.listeners[l].msg); }
  }

  // ----- an alive message can be exhausted -----

  /** As far as the record and the message's origin go, t is s. */
  ghost predicate SameRecord(s: World, t: World, i: nat) {
    && t.db == s.db && i < |s.stream| && |t.stream| == |s.stream|
    && t.stream[i].job == s.stream[i].job && t.stream[i].row == s.stream[i].row
  }

  lemma FromRaised(cfg: Settings, s: World, t: World, i: nat) returns (u: World)
    requires Leads(cfg, s, t) && Alive(t, i) && t.stream[i].advisory == Raised
    ensures Leads(cfg, s, u) && BeforeAudit(t, u, "", i)
  {
    var t1 := Step1(cfg, s, t, ListenerDie(""));
    var t2 := Step1(cfg, s, t1, Fetch("", i));
    assert t2 == Listen(t1, "", i, Load);
    u := FromLoad(cfg, s, t2, "", i);
  }

  /** Time passes until the message is due. */
  lemma UntilDue(cfg: Settings, s: World, t: World, i: nat) returns (u: World)
    requires Leads(cfg, s, t) && Alive(t, i)
    ensures Leads(cfg, s, u) && SameRecord(t, u, i) && u.stream == t.stream && u.workers == t.workers
    ensures Due(u.stream[i], u.now)
  {
    var at := DueAt(t.stream[i].fate);
    u := Step1(cfg, s, t, Tick(if at <= t.now then 0.0 else at - t.now));
  }

  /** A delivery whose handler dies at once. */
  lemma DeliverInVain(cfg: Settings, s: World, t: World, i: nat) returns (u: World)
    requires Leads(cfg, s, t) && Alive(t, i) && Due(t.stream[i], t.now) && t.stream[i].deliveries < cfg.maxDeliver
    ensures Leads(cfg, s, u) && SameRecord(t, u, i) && Alive(u, i)
    ensures u.stream[i].deliveries == t.stream[i].deliveries + 1 && u.stream[i].advisory == t.stream[i].advisory
  {
    var t1 := Step1(cfg, s, t, Die(""));
    assert CanDeliver(cfg, t1, "", i);
    var t2 := Step1(cfg, s, t1, Deliver("", i));
    DeliverUnfolds(cfg, t1, "", i);
    u := Step1(cfg, s, t2, Die(""));
  }

  lemma RaiseAdvisory(cfg: Settings, s: World, t: World, i: nat) returns (u: World)
    requires Leads(cfg, s, t) && CanAdvise(cfg, t, i)
    ensures Leads(cfg, s, u) && SameRecord(t, u, i) && Alive(u, i) && u.stream[i].advisory == Raised
  {
    u := Step1(cfg, s, t, Advise(i));
  }

  /** An alive message, however often delivered, can be exhausted, and its quarantine brought to its audit. */
  lemma {:induction false} LetterMarks(cfg: Settings, s: World, t: World, i: nat) returns (u: World)
    requires Leads(cfg, s, t) && Alive(t, i)
    ensures Leads(cfg, s, u) && BeforeAudit(t, u, "", i)
    decreases cfg.maxDeliver - t.stream[i].deliveries
  {
    if t.stream[i].advisory == Raised {
      u := FromRaised(cfg, s, t, i);
    } else {
      var due := UntilDue(cfg, s, t, i);
      if t.stream[i].deliveries < cfg.maxDeliver {
        var again := DeliverInVain(cfg, s, due, i);
        u := LetterMarks(cfg, s, again, i);
      } else {
        var raised := RaiseAdvisory(cfg, s, due, i);
        u := FromRaised(cfg, s, raised, i);
      }
    }
  }

  // ----- the audit -----

  /** The audit write of an active job dead-letters it. */
  lemma AuditDeadLetters(cfg: Settings, s: World, l: string, inWindow: bool, i: nat, j: JobId)
    requires l in s.listeners && s.listeners[l] == Quarantine(i, Mark) && Concerns(s, i, j)
    requires j in s.db.jobs && Active(s.db.jobs[j].row.state)
    ensures var t := Next(cfg, s, Listening(l, inWindow));
            && InState(t, j, DeadLetter)
            && LogIn(t, j) == LogIn(s, j) + [EventOf(DeadLetterWrite(s.stream[i]))]
  {
    ListenUnfolds(cfg, s, l, inWindow);
    assert Judge(s.db.jobs[j].row, DeadLetterWrite(s.stream[i])) == Accepted;
  }

  /** Some message of these rows can still dead-letter the job. */
  lemma UnquietMarks(cfg: Settings, s: World, j: JobId, bound: int) returns (u: World, l: string, i: nat)
    requires Reachable(cfg, s) && cfg.batchSize > 0 && !Quiet(s, j, bound)
    ensures Leads(cfg, s, u) && u.db.jobs == s.db.jobs && Old(u, i, j, bound)
    ensures l in u.listeners && u.listeners[l] == Quarantine(i, Mark)
  {
    LeadsNowhere(cfg, s);
    if !LettersDead(s, j, bound) {
      i :| 0 <= i < |s.stream| && Old(s, i, j, bound) && Alive(s, i);
      l := "";
      u := LetterMarks(cfg, s, s, i);
    } else if !ListenersDone(s, j, bound) {
      l :| l in s.listeners && Old(s, s.listeners[l].msg, j, bound) && WillMark(s, s.listeners[l]);
      i := s.listeners[l].msg;
      u := QuarantineMarks(cfg, s, l);
    } else {
      l := "";
      u, i := UnseenRowMarks(cfg, s, j, bound);
    }
  }

  lemma UnseenRowMarks(cfg: Settings, s: World, j: JobId, bound: int) returns (u: World, i: nat)
    requires Reachable(cfg, s) && cfg.batchSize > 0 && !RowsSeen(s, j, bound)
    ensures Leads(cfg, s, u) && u.db.jobs == s.db.jobs && Old(u, i, j, bound)
    ensures "" in u.listeners && u.listeners[""] == Quarantine(i, Mark)
  {
    var r :| 0 <= r < bound && r < |s.db.outbox| && s.db.outbox[r].job == j && !Known(s.stream, r);
    UnseenWaits(cfg, s, r);
    WaitingRowIsReached(cfg, s, r);
    var t :| Leads(cfg, s, t) && t.db.jobs == s.db.jobs && AliveBut(t, r, -1);
    i :| 0 <= i < |t.stream| && i != -1 && t.stream[i].row == r && Alive(t, i);
    LetterOfRow(cfg, s, t, i);
    u := LetterMarks(cfg, s, t, i);
  }

  lemma UnseenWaits(cfg: Settings, s: World, r: nat)
    requires Reachable(cfg, s) && r < |s.db.outbox| && !Known(s.stream, r)
    ensures Waits(s, r)
  {
    ReachableIsSafe(cfg, s);
  }

  /** A message belongs to the job of its row. */
  lemma LetterOfRow(cfg: Settings, s: World, t: World, i: nat)
    requires Reachable(cfg, s) && Leads(cfg, s, t) && i < |t.stream| && t.stream[i].row < |s.db.outbox|
    ensures t.stream[i].job == s.db.outbox[t.stream[i].row].job
  {
    var ws, steps :| Path(cfg, ws, steps) && ws[0] == s && Last(ws) == t && AllPublishInWindow(steps);
    PathGrows(cfg, ws, steps, 0, |steps|);
    LeadsReachable(cfg, s, t);
    ReachableIsSafe(cfg, t);
    assert MessageOk(cfg, t, i);
  }

  // ----- a handler can be brought to its write -----

  /** Nothing but time stands between the handler and an accepted write. */
  ghost predicate MayWrite(h: Handler, row: JobRow) {
    match h.pc
    case CheckDone => true
    case TakeClaim => true
    case DrawToken => true
    case TakeLease => row.fence <= h.token
    case WriteStarted => row.fence <= h.token
    case Execute => row.state == Running && row.fence <= h.token
    case WriteCompleted => row.state == Running && row.fence <= h.token
    case WriteRequeued => row.state == Running && row.fence <= h.token
    case WriteFailed => row.state == Running && row.fence <= h.token
    case _ => false
  }

  const Succeeds := Env(true, 0, 5.0)

  /** The job's log has grown. */
  ghost predicate Extended(s: World, t: World, j: JobId) {
    j in s.db.jobs && j in t.db.jobs && LogIn(s, j) < LogIn(t, j)
  }

  lemma WriteExtends(cfg: Settings, s: World, t: World, w: WorkerId, j: JobId) returns (u: World)
    requires Leads(cfg, s, t) && w in t.workers && t.workers[w].job == j && EventAt(t.workers[w].pc).Some?
    requires j in t.db.jobs && JudgeIn(t.db, j, WorkerWrite(t.workers[w], EventAt(t.workers[w].pc).value)) == Accepted
    ensures Leads(cfg, s, u) && Extended(t, u, j)
  {
    u := Step1(cfg, s, t, Work(w, Succeeds));
    WorkUnfolds(cfg, t, w, Succeeds);
    var h := t.workers[w];
    ActionShape(cfg, w, h, Succeeds);
    assert Effect(t, h, Commit(WorkerWrite(h, EventAt(h.pc).value))).db
        == Recorded(t.db, j, WorkerWrite(h, EventAt(h.pc).value));
  }

  lemma FromWriteStarted(cfg: Settings, s: World, t: World, w: WorkerId, j: JobId) returns (u: World)
    requires Leads(cfg, s, t) && w in t.workers && t.workers[w].job == j && t.workers[w].pc == WriteStarted
    requires j in t.db.jobs && Active(t.db.jobs[j].row.state) && t.db.jobs[j].row.fence <= t.workers[w].token
    ensures Leads(cfg, s, u) && Extended(t, u, j)
  {
    StartIsAccepted(t.db.jobs[j].row, t.workers[w]);
    u := WriteExtends(cfg, s, t, w, j);
  }

  lemma FromTakeLease(cfg: Settings, s: World, t: World, w: WorkerId, j: JobId) returns (u: World)
    requires Leads(cfg, s, t) && w in t.workers && t.workers[w].job == j && t.workers[w].pc == TakeLease
    requires LeaseKey(j) !in t.kv
    requires j in t.db.jobs && Active(t.db.jobs[j].row.state) && t.db.jobs[j].row.fence <= t.workers[w].token
    ensures Leads(cfg, s, u) && Extended(t, u, j)
  {
    var t1 := Step1(cfg, s, t, Work(w, Succeeds));
    LeaseGoesOn(cfg, t, w, Succeeds);
    u := FromWriteStarted(cfg, s, t1, w, j);
  }

  lemma FromDrawToken(cfg: Settings, s: World, t: World, w: WorkerId, j: JobId) returns (u: World)
    requires Leads(cfg, s, t) && w in t.workers && t.workers[w].job == j && t.workers[w].pc == DrawToken
    requires LeaseKey(j) !in t.kv
    requires j in t.db.jobs && Active(t.db.jobs[j].row.state) && t.db.jobs[j].row.fence <= |Issued(t, j)|
    ensures Leads(cfg, s, u) && Extended(t, u, j)
  {
    var t1 := Step1(cfg, s, t, Work(w, Succeeds));
    DrawGoesOn(cfg, t, w, Succeeds);
    u := FromTakeLease(cfg, s, t1, w, j);
  }

  lemma FromTakeClaim(cfg: Settings, s: World, t: World, w: WorkerId, j: JobId) returns (u: World)
    requires Leads(cfg, s, t) && w in t.workers && t.workers[w].job == j && t.workers[w].pc == TakeClaim
    requires LeaseKey(j) !in t.kv && ClaimKey(j) !in t.kv
    requires j in t.db.jobs && Active(t.db.jobs[j].row.state) && t.db.jobs[j].row.fence <= |Issued(t, j)|
    ensures Leads(cfg, s, u) && Extended(t, u, j)
  {
    var t1 := Step1(cfg, s, t, Work(w, Succeeds));
    ClaimGoesOn(cfg, t, w, Succeeds);
    u := FromDrawToken(cfg, s, t1, w, j);
  }

  lemma FromCheckDone(cfg: Settings, s: World, t: World, w: WorkerId, j: JobId) returns (u: World)
    requires Leads(cfg, s, t) && w in t.workers && t.workers[w].job == j && t.workers[w].pc == CheckDone
    requires LeaseKey(j) !in t.kv && ClaimKey(j) !in t.kv && DoneKey(j) !in t.kv
    requires j in t.db.jobs && Active(t.db.jobs[j].row.state) && t.db.jobs[j].row.fence <= |Issued(t, j)|
    ensures Leads(cfg, s, u) && Extended(t, u, j)
  {
    var t1 := Step1(cfg, s, t, Work(w, Succeeds));
    CheckDoneGoesOn(cfg, t, w, Succeeds);
    u := FromTakeClaim(cfg, s, t1, w, j);
  }

  lemma FromExecute(cfg: Settings, s: World, t: World, w: WorkerId, j: JobId) returns (u: World)
    requires Leads(cfg, s, t) && w in t.workers && t.workers[w].job == j && t.workers[w].pc == Execute
    requires InState(t, j, Running) && t.db.jobs[j].row.fence <= t.workers[w].token
    ensures Leads(cfg, s, u) && Extended(t, u, j)
  {
    var t1 := Step1(cfg, s, t, Work(w, Succeeds));
    CallGoesOn(cfg, t, w);
    u := FromWrite(cfg, s, t1, w, j);
  }

  lemma CallGoesOn(cfg: Settings, s: World, w: WorkerId)
    requires w in s.workers && s.workers[w].pc == Execute
    ensures var t := Next(cfg, s, Work(w, Succeeds));
            && t.db == s.db && w in t.workers
            && t.workers[w] == s.workers[w].(pc := WriteCompleted, result := Succeeds.result)
  {
    WorkUnfolds(cfg, s, w, Succeeds);
    assert ActionAt(cfg, w, s.workers[w], Succeeds) == Call;
    assert Onward(cfg, s.workers[w], Yes) == Some(WriteCompleted);
  }

  lemma FromWrite(cfg: Settings, s: World, t: World, w: WorkerId, j: JobId) returns (u: World)
    requires Leads(cfg, s, t) && w in t.workers && t.workers[w].job == j
    requires var pc := t.workers[w].pc; pc == WriteCompleted || pc == WriteRequeued || pc == WriteFailed
    requires InState(t, j, Running) && t.db.jobs[j].row.fence <= t.workers[w].token
    ensures Leads(cfg, s, u) && Extended(t, u, j)
  {
    u := WriteExtends(cfg, s, t, w, j);
  }

  /** Time passes until claim and lease of the job are gone. */
  lemma UntilFree(cfg: Settings, s: World, t: World, j: JobId) returns (u: World)
    requires Leads(cfg, s, t)
    ensures Leads(cfg, s, u) && u.db == t.db && u.workers == t.workers && u.issued == t.issued
    ensures ClaimKey(j) !in u.kv && LeaseKey(j) !in u.kv && (DoneKey(j) !in t.kv ==> DoneKey(j) !in u.kv)
  {
    var claim := Left(t, ClaimKey(j));
    var lease := Left(t, LeaseKey(j));
    u := Step1(cfg, s, t, Tick(if claim <= lease then lease else claim));
  }

  /** How long the entry has still to live. */
  ghost function Left(s: World, key: Key): real {
    if key in s.kv && s.now < s.kv[key].expiresAt then s.kv[key].expiresAt - s.now else 0.0
  }

  /** What the invariant says about a handler of an active job. */
  ghost predicate Groundwork(s: World, j: JobId) {
    j in s.db.jobs && Active(s.db.jobs[j].row.state) && s.db.jobs[j].row.fence <= |Issued(s, j)| && DoneKey(j) !in s.kv
  }

  lemma GroundworkIsLaid(cfg: Settings, s: World, j: JobId)
    requires Reachable(cfg, s) && j in s.db.jobs && Active(s.db.jobs[j].row.state)
    ensures Groundwork(s, j)
  {
    JobIsOk(cfg, s, j);
    FenceIsIssued(cfg, s.db.jobs[j], Issued(s, j));
    AcksAreSound(cfg, s);
  }

  /** A handler that may write can be brought to an accepted write. */
  lemma HandlerWrites(cfg: Settings, s: World, w: WorkerId, j: JobId) returns (u: World)
    requires w in s.workers && s.workers[w].job == j && Groundwork(s, j) && MayWrite(s.workers[w], s.db.jobs[j].row)
    ensures Leads(cfg, s, u) && Extended(s, u, j)
  {
    LeadsNowhere(cfg, s);
    var t := UntilFree(cfg, s, s, j);
    match s.workers[w].pc
    case CheckDone => u := FromCheckDone(cfg, s, t, w, j);
    case TakeClaim => u := FromTakeClaim(cfg, s, t, w, j);
    case DrawToken => u := FromDrawToken(cfg, s, t, w, j);
    case TakeLease => u := FromTakeLease(cfg, s, t, w, j);
    case WriteStarted => u := FromWriteStarted(cfg, s, t, w, j);
    case Execute => u := FromExecute(cfg, s, t, w, j);
    case WriteCompleted => u := FromWrite(cfg, s, t, w, j);
    case WriteRequeued => u := FromWrite(cfg, s, t, w, j);
    case WriteFailed => u := FromWrite(cfg, s, t, w, j);
  }

  // ----- a carrier carries to the end -----

  /**
   From every reachable state in which an active job has a carrier, some steps bring the job to its
   end: its carrier, if nothing better comes of it, takes it to DEAD_LETTER.
   */
  lemma CarrierCanFinish(cfg: Settings, s: World, j: JobId)
    requires Reachable(cfg, s) && cfg.batchSize > 0 && HasCarrier(s, j)
    requires j in s.db.jobs && Active(s.db.jobs[j].row.state)
    ensures exists t :: Leads(cfg, s, t) && InState(t, j, DeadLetter)
  {
    CarrierIsUnquiet(cfg, s, j);
    var u, l, i := UnquietMarks(cfg, s, j, |s.db.outbox|);
    AuditDeadLetters(cfg, u, l, true, i, j);
    var t := Step1(cfg, s, u, Listening(l, true));
  }

  lemma CarrierIsUnquiet(cfg: Settings, s: World, j: JobId)
    requires Reachable(cfg, s) && HasCarrier(s, j)
    ensures !Quiet(s, j, |s.db.outbox|)
  {
    var r := LatestRow(s.db.outbox, j);
    LatestIsLatest(s.db.outbox, j);
    if AliveBut(s, r, -1) {
      var i :| 0 <= i < |s.stream| && i != -1 && s.stream[i].row == r && Alive(s, i);
      LeadsNowhere(cfg, s);
      LetterOfRow(cfg, s, s, i);
      assert Old(s, i, j, |s.db.outbox|);
    }
  }
}
