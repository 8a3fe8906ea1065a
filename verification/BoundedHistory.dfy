/** How long a job's history can get: deliveries bound executions, executions bound the log. */
module BoundedHistory {
  import opened Domain
  import opened Keys
  import opened Records
  import opened System
  import opened Safety
  import opened OtherSteps
  import opened Guarantees

  /** The messages ever stored for a job. */
  function MessagesFor(stream: seq<Message>, j: JobId): set<nat> {
    set i | 0 <= i < |stream| && stream[i].job == j
  }

  // ----- counting -----

  function Row(msgs: set<nat>, attempt: nat): set<Delivery> {
    set m | m in msgs :: Delivery(m, attempt)
  }

  function Grid(msgs: set<nat>, n: nat): set<Delivery> {
    if n == 0 then {} else Grid(msgs, n - 1) + Row(msgs, n)
  }

  lemma {:induction false} RowSize(msgs: set<nat>, attempt: nat)
    ensures |Row(msgs, attempt)| == |msgs|
  {
    if m :| m in msgs {
      RowSize(msgs - {m}, attempt);
      assert Row(msgs, attempt) == Row(msgs - {m}, attempt) + {Delivery(m, attempt)};
    }
  }

  lemma {:induction false} GridSize(msgs: set<nat>, n: nat)
    ensures |Grid(msgs, n)| <= |msgs| * n
  {
    if n > 0 {
      GridSize(msgs, n - 1);
      RowSize(msgs, n);
      UnionSize(Grid(msgs, n - 1), Row(msgs, n));
      OneMore(|msgs|, n);
    }
  }

  lemma UnionSize(a: set<Delivery>, b: set<Delivery>)
    ensures |a + b| <= |a| + |b|
  {
    assert a + b == a + (b - a);
  }

  lemma OneMore(m: nat, n: int)
    ensures m * n == m * (n - 1) + m
  {}

  lemma {:induction false} InGrid(msgs: set<nat>, n: nat, d: Delivery)
    requires d.msg in msgs && 1 <= d.attempt <= n
    ensures d in Grid(msgs, n)
  {
    if d.attempt < n { InGrid(msgs, n - 1, d); }
  }

  /** Events of a kind that each carry a token of their own. */
  ghost predicate Distinct(log: Log, issued: seq<Delivery>, e: EventType) {
    && (forall i :: 0 <= i < |log| && log[i].event == e ==> log[i].token.Some? && 1 <= log[i].token.value <= |issued|)
    && (forall i, k :: 0 <= i < k < |log| && log[i].event == e && log[k].event == e ==> log[i].token != log[k].token)
  }

  ghost predicate Injective(issued: seq<Delivery>) {
    forall a, b :: 0 <= a < b < |issued| ==> issued[a] != issued[b]
  }

  lemma DistinctInit(log: Log, issued: seq<Delivery>, e: EventType)
    requires log != [] && Distinct(log, issued, e)
    ensures Distinct(log[..|log| - 1], issued, e)
  {}

  /** The deliveries behind the events of a kind. */
  ghost function Behind(log: Log, issued: seq<Delivery>, e: EventType): set<Delivery>
    requires Distinct(log, issued, e)
  {
    if log == [] then {}
    else
      DistinctInit(log, issued, e);
      var last := log[|log| - 1];
      Behind(log[..|log| - 1], issued, e) + (if last.event == e then {issued[last.token.value - 1]} else {})
  }

  lemma {:induction false} EventBehind(log: Log, issued: seq<Delivery>, e: EventType, d: Delivery) returns (i: nat)
    requires Distinct(log, issued, e) && d in Behind(log, issued, e)
    ensures i < |log| && log[i].event == e && issued[log[i].token.value - 1] == d
  {
    var n := |log| - 1;
    if log[n].event == e && issued[log[n].token.value - 1] == d {
      i := n;
    } else {
      DistinctInit(log, issued, e);
      i := EventBehind(log[..n], issued, e, d);
    }
  }

  lemma {:induction false} CountBehind(log: Log, issued: seq<Delivery>, e: EventType)
    requires Distinct(log, issued, e) && Injective(issued)
    ensures Count(log, e) == |Behind(log, issued, e)|
  {
    if log != [] {
      var n := |log| - 1;
      DistinctInit(log, issued, e);
      CountBehind(log[..n], issued, e);
      if log[n].event == e {
        NotBehind(log, issued, e);
      }
    }
  }

  lemma NotBehind(log: Log, issued: seq<Delivery>, e: EventType)
    requires log != [] && Distinct(log, issued, e) && Injective(issued) && log[|log| - 1].event == e
    ensures Distinct(log[..|log| - 1], issued, e)
    ensures issued[log[|log| - 1].token.value - 1] !in Behind(log[..|log| - 1], issued, e)
  {
    var d := issued[log[|log| - 1].token.value - 1];
    DistinctInit(log, issued, e);
    if d in Behind(log[..|log| - 1], issued, e) {
      var i := EventBehind(log[..|log| - 1], issued, e, d);
      assert false;
    }
  }

  lemma SubsetSize(a: set<Delivery>, b: set<Delivery>)
    requires a <= b
    ensures |a| <= |b|
  {
    assert b == a + (b - a);
  }

  /** If every delivery behind an event lies in a grid, the grid bounds the count. */
  lemma CountInGrid(log: Log, issued: seq<Delivery>, e: EventType, msgs: set<nat>, n: nat)
    requires Distinct(log, issued, e) && Injective(issued)
    requires forall i :: 0 <= i < |log| && log[i].event == e ==>
               issued[log[i].token.value - 1].msg in msgs && 1 <= issued[log[i].token.value - 1].attempt <= n
    ensures Count(log, e) <= |msgs| * n
  {
    CountBehind(log, issued, e);
    forall d | d in Behind(log, issued, e) ensures d in Grid(msgs, n) {
      var i := EventBehind(log, issued, e, d);
      InGrid(msgs, n, d);
    }
    SubsetSize(Behind(log, issued, e), Grid(msgs, n));
    GridSize(msgs, n);
  }

  // ----- the bound -----

  lemma StartsDistinct(cfg: Settings, job: Job, issued: seq<Delivery>)
    requires JobOk(cfg, job, issued)
    ensures Distinct(job.log, issued, Started)
  {
    forall i | 0 <= i < |job.log| && job.log[i].event == Started
      ensures job.log[i].token.Some? && 1 <= job.log[i].token.value <= |issued|
    {
      assert EntryOk(cfg, job.log[i], issued);
    }
  }

  lemma RequeuesDistinct(cfg: Settings, job: Job, issued: seq<Delivery>)
    requires JobOk(cfg, job, issued)
    ensures Distinct(job.log, issued, Requeued)
  {
    var log := job.log;
    forall i | 0 <= i < |log| && log[i].event == Requeued
      ensures log[i].token.Some? && 1 <= log[i].token.value <= |issued| { assert EntryOk(cfg, log[i], issued); }
    forall i, k | 0 <= i < k < |log| && log[i].event == Requeued && log[k].event == Requeued
      ensures log[i].token != log[k].token
    {
      assert log[i - 1].event == Started && log[k - 1].event == Started;
    }
  }

  lemma DrawnByStored(cfg: Settings, s: World, j: JobId, a: nat)
    requires IssuedOk(s, j) && MessagesOk(cfg, s) && a < |Issued(s, j)|
    ensures Issued(s, j)[a].msg in MessagesFor(s.stream, j) && 1 <= Issued(s, j)[a].attempt <= cfg.maxDeliver
  {
    assert DeliveryOk(s, j, Issued(s, j)[a]);
    assert MessageOk(cfg, s, Issued(s, j)[a].msg);
  }

  /**
   With m messages stored for a job and r replays, its log holds at most m * max_deliver STARTED and
   m * (max_deliver - 1) REQUEUED, gives up only at attempt max_deliver, and is no longer than
   3 + 2 * m * max_deliver + 2 * r.
   */
  lemma HistoryIsBounded(cfg: Settings, s: World, j: JobId)
    requires Reachable(cfg, s) && j in s.db.jobs && cfg.maxDeliver >= 1
    ensures var log := LogIn(s, j);
            var m := |MessagesFor(s.stream, j)|;
            && Count(log, Started) <= m * cfg.maxDeliver
            && Count(log, Requeued) <= m * (cfg.maxDeliver - 1)
            && (forall i :: 0 <= i < |log| && log[i].event == EventType.Failed ==> log[i].attempt >= cfg.maxDeliver)
            && |log| <= 3 + 2 * (m * cfg.maxDeliver) + 2 * Count(log, Replayed)
  {
    ReachableIsSafe(cfg, s);
    JobIsOk(cfg, s, j);
    StartsAreBounded(cfg, s, j);
    RequeuesAreBounded(cfg, s, j);
    RecordIsBounded(cfg, s, j);
  }

  lemma RecordIsBounded(cfg: Settings, s: World, j: JobId)
    requires JobsOk(cfg, s) && j in s.db.jobs
    ensures var log := LogIn(s, j);
            && (forall i :: 0 <= i < |log| && log[i].event == EventType.Failed ==> log[i].attempt >= cfg.maxDeliver)
            && |log| <= 3 + 2 * Count(log, Started) + 2 * Count(log, Replayed)
  {
    var job := s.db.jobs[j];
    assert JobOk(cfg, job, DrawnFrom(s.issued, j));
    forall i | 0 <= i < |job.log| && job.log[i].event == EventType.Failed ensures job.log[i].attempt >= cfg.maxDeliver {
      assert EntryOk(cfg, job.log[i], Issued(s, j));
    }
    LegalShape(job.log);
    LengthIsCounts(job.log);
  }

  lemma StartsAreBounded(cfg: Settings, s: World, j: JobId)
    requires j in s.db.jobs && JobOk(cfg, s.db.jobs[j], Issued(s, j)) && IssuedOk(s, j) && MessagesOk(cfg, s)
    ensures Count(LogIn(s, j), Started) <= |MessagesFor(s.stream, j)| * cfg.maxDeliver
  {
    var log, issued, msgs := LogIn(s, j), Issued(s, j), MessagesFor(s.stream, j);
    StartsDistinct(cfg, s.db.jobs[j], issued);
    forall i | 0 <= i < |log| && log[i].event == Started
      ensures issued[log[i].token.value - 1].msg in msgs
      ensures 1 <= issued[log[i].token.value - 1].attempt <= cfg.maxDeliver
    {
      DrawnByStored(cfg, s, j, log[i].token.value - 1);
    }
    CountInGrid(log, issued, Started, msgs, cfg.maxDeliver);
  }

  lemma RequeueDrawn(cfg: Settings, s: World, j: JobId, i: nat)
    requires j in s.db.jobs && JobOk(cfg, s.db.jobs[j], Issued(s, j)) && IssuedOk(s, j) && MessagesOk(cfg, s)
    requires i < |LogIn(s, j)| && LogIn(s, j)[i].event == Requeued
    ensures var e, issued := LogIn(s, j)[i], Issued(s, j);
            && e.token.Some? && 1 <= e.token.value <= |issued|
            && issued[e.token.value - 1].msg in MessagesFor(s.stream, j)
            && 1 <= issued[e.token.value - 1].attempt <= cfg.maxDeliver - 1
  {
    assert EntryOk(cfg, LogIn(s, j)[i], Issued(s, j));
    DrawnByStored(cfg, s, j, LogIn(s, j)[i].token.value - 1);
  }

  lemma RequeuesAreBounded(cfg: Settings, s: World, j: JobId)
    requires j in s.db.jobs && JobOk(cfg, s.db.jobs[j], Issued(s, j)) && IssuedOk(s, j) && MessagesOk(cfg, s)
    requires cfg.maxDeliver >= 1
    ensures Count(LogIn(s, j), Requeued) <= |MessagesFor(s.stream, j)| * (cfg.maxDeliver - 1)
  {
    var log, issued, msgs := LogIn(s, j), Issued(s, j), MessagesFor(s.stream, j);
    RequeuesDistinct(cfg, s.db.jobs[j], issued);
    forall i | 0 <= i < |log| && log[i].event == Requeued
      ensures issued[log[i].token.value - 1].msg in msgs
      ensures 1 <= issued[log[i].token.value - 1].attempt <= cfg.maxDeliver - 1
    {
      RequeueDrawn(cfg, s, j, i);
    }
    CountInGrid(log, issued, Requeued, msgs, cfg.maxDeliver - 1);
  }
}
