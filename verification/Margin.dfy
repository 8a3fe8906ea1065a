/**
 First-redelivery recovery, from the delivery of the worker that dies. A claim or lease taken within
 ack_wait - lease_ttl of a delivery is gone by the broker's deadline for that delivery, so the next
 delivery of the message finds nothing in its way.
 */
module Margin {
  import opened Core
  import opened Domain
  import opened Keys
  import opened System
  import opened Safety
  import opened Frames
  import opened OtherSteps
  import opened Guarantees
  import opened NoLoss
  import opened Promptness
  import opened Recovery

  // ----- no claim or lease outlives its TTL -----

  ghost predicate Exclusive(key: Key) {
    key.ClaimKey? || key.LeaseKey?
  }

  ghost predicate WithinTtl(cfg: Settings, s: World) {
    forall k :: k in s.kv && Exclusive(k) ==> s.kv[k].expiresAt <= s.now + cfg.leaseTtl
  }

  lemma TakeShape(cfg: Settings, w: WorkerId, h: Handler, env: Env)
    ensures var a := ActionAt(cfg, w, h, env);
            a.Take? && Exclusive(a.key) ==> a.ttl == cfg.leaseTtl && (h.pc == TakeClaim || h.pc == TakeLease)
  {}

  /** What an effect does to an entry: it stays, goes, or is taken now. */
  lemma EntryMoves(s: World, h: Handler, a: Action, k: Key)
    requires k in Effect(s, h, a).kv
    ensures var e := Effect(s, h, a).kv[k];
            || (k in s.kv && e == s.kv[k])
            || (a.Take? && a.key == k && e.expiresAt == s.now + a.ttl)
    ensures Effect(s, h, a).now == s.now
  {}

  lemma WorkerWithinTtl(cfg: Settings, s: World, w: WorkerId, env: Env)
    requires w in s.workers && WithinTtl(cfg, s)
    ensures WithinTtl(cfg, WorkerStep(cfg, s, w, env))
  {
    var h := s.workers[w];
    var a := ActionAt(cfg, w, h, env);
    TakeShape(cfg, w, h, env);
    WorkTakesNoTime(cfg, s, w, env);
    forall k | k in Effect(s, h, a).kv && Exclusive(k) ensures Effect(s, h, a).kv[k].expiresAt <= s.now + cfg.leaseTtl {
      EntryMoves(s, h, a, k);
    }
  }

  lemma NextWithinTtl(cfg: Settings, s: World, step: Step)
    requires WithinTtl(cfg, s)
    ensures WithinTtl(cfg, Next(cfg, s, step))
  {
    if step.Work? {
      WorkUnfolds(cfg, s, step.worker, step.env);
      if step.worker in s.workers { WorkerWithinTtl(cfg, s, step.worker, step.env); }
    } else {
      KeysFrame(cfg, s, step);
      NextGrows(cfg, s, step);
    }
  }

  lemma TtlLink(cfg: Settings, ws: seq<World>, steps: seq<Step>, n: nat)
    requires Path(cfg, ws, steps) && n < |steps| && WithinTtl(cfg, ws[n])
    ensures WithinTtl(cfg, ws[n + 1])
  {
    assert Linked(cfg, ws, steps, n);
    NextWithinTtl(cfg, ws[n], steps[n]);
  }

  lemma {:induction false} PathWithinTtl(cfg: Settings, ws: seq<World>, steps: seq<Step>, n: nat)
    requires Path(cfg, ws, steps) && n < |ws| && WithinTtl(cfg, ws[0])
    ensures WithinTtl(cfg, ws[n])
  {
    if n > 0 {
      PathWithinTtl(cfg, ws, steps, n - 1);
      TtlLink(cfg, ws, steps, n - 1);
    }
  }

  /** In every reachable state every claim and lease is gone within one TTL. */
  lemma ReachableWithinTtl(cfg: Settings, s: World)
    requires Reachable(cfg, s)
    ensures WithinTtl(cfg, s)
  {
    var ws, steps :| IsRun(cfg, ws, steps) && Last(ws) == s;
    PathWithinTtl(cfg, ws, steps, |ws| - 1);
  }

  // ----- from a delivery to a death -----

  /**
   v is the only worker on the job; claim and lease, whoever took them, are gone by the deadline; the
   message still waits for an answer to v's delivery, was answered with a nak, or is gone.
   */
  ghost predicate Attended(s: World, v: WorkerId, j: JobId, msg: nat, until: real) {
    && (forall u :: u in s.workers && s.workers[u].job == j ==> u == v)
    && ExpiresBy(s, ClaimKey(j), until) && ExpiresBy(s, LeaseKey(j), until)
    && msg < |s.stream| && s.stream[msg].job == j
    && (Stored(s.stream[msg].fate) ==> s.stream[msg].fate.Ready? || s.stream[msg].fate == InFlight(until))
  }

  /** If the step is v taking a claim or a lease, it happens a TTL before the deadline. */
  ghost predicate InMargin(cfg: Settings, s: World, step: Step, v: WorkerId, until: real) {
    MovedBy(step, v) && v in s.workers && (s.workers[v].pc == TakeClaim || s.workers[v].pc == TakeLease) ==>
      s.now <= until - cfg.leaseTtl
  }

  lemma LetterMoves(s: World, h: Handler, a: Action, msg: nat, until: real)
    requires msg < |s.stream|
    requires Stored(s.stream[msg].fate) ==> s.stream[msg].fate.Ready? || s.stream[msg].fate == InFlight(until)
    ensures var t := Effect(s, h, a);
            && msg < |t.stream| && t.stream[msg].job == s.stream[msg].job
            && (Stored(t.stream[msg].fate) ==> t.stream[msg].fate.Ready? || t.stream[msg].fate == InFlight(until))
  {}

  lemma ActorExpires(cfg: Settings, s: World, v: WorkerId, env: Env, key: Key, until: real)
    requires v in s.workers && Exclusive(key) && ExpiresBy(s, key, until) && InMargin(cfg, s, Work(v, env), v, until)
    ensures ExpiresBy(WorkerStep(cfg, s, v, env), key, until)
  {
    var h := s.workers[v];
    var a := ActionAt(cfg, v, h, env);
    TakeShape(cfg, v, h, env);
    if key in Effect(s, h, a).kv { EntryMoves(s, h, a, key); }
  }

  lemma ActorAttends(cfg: Settings, s: World, v: WorkerId, env: Env, j: JobId, msg: nat, until: real)
    requires Attended(s, v, j, msg, until) && v in s.workers && InMargin(cfg, s, Work(v, env), v, until)
    ensures Attended(WorkerStep(cfg, s, v, env), v, j, msg, until)
  {
    var h := s.workers[v];
    LetterMoves(s, h, ActionAt(cfg, v, h, env), msg, until);
    ActorExpires(cfg, s, v, env, ClaimKey(j), until);
    ActorExpires(cfg, s, v, env, LeaseKey(j), until);
    forall u | u in WorkerStep(cfg, s, v, env).workers && WorkerStep(cfg, s, v, env).workers[u].job == j
      ensures u == v
    {
      if u != v { WorkerMovesItself(cfg, s, v, env, u); }
    }
  }

  lemma OthersAttend(cfg: Settings, s: World, u: WorkerId, env: Env, v: WorkerId, j: JobId, msg: nat, until: real)
    requires Attended(s, v, j, msg, until) && u in s.workers && s.workers[u].job != j && HandlerOk(cfg, s, u)
    ensures Attended(WorkerStep(cfg, s, u, env), v, j, msg, until)
  {
    WorkElsewhere(cfg, s, u, env, j, msg);
    var t := WorkerStep(cfg, s, u, env);
    forall x | x in t.workers && t.workers[x].job == j ensures x == v {
      if x != u { WorkerMovesItself(cfg, s, u, env, x); }
    }
  }

  lemma AmbientAttends(cfg: Settings, s: World, step: Step, v: WorkerId, j: JobId, msg: nat, until: real)
    requires Attended(s, v, j, msg, until) && !step.Work? && DeliversNone(s, step, j)
    ensures Attended(Next(cfg, s, step), v, j, msg, until)
  {
    KeysFrame(cfg, s, step);
    AmbientWorkersElsewhere(cfg, s, step, j, msg);
    AmbientLetterElsewhere(cfg, s, step, j, msg);
    var t := Next(cfg, s, step);
    forall u | u in t.workers && t.workers[u].job == j ensures u == v { JobStays(cfg, s, step, u); }
  }

  lemma AttendedKeeps(cfg: Settings, s: World, step: Step, v: WorkerId, j: JobId, msg: nat, until: real)
    requires step.Work? && step.worker in s.workers ==> HandlerOk(cfg, s, step.worker)
    requires Attended(s, v, j, msg, until) && DeliversNone(s, step, j) && InMargin(cfg, s, step, v, until)
    ensures Attended(Next(cfg, s, step), v, j, msg, until)
  {
    if step.Work? {
      WorkUnfolds(cfg, s, step.worker, step.env);
      if step.worker == v && v in s.workers {
        ActorAttends(cfg, s, v, step.env, j, msg, until);
      } else if step.worker in s.workers {
        OthersAttend(cfg, s, step.worker, step.env, v, j, msg, until);
      }
    } else {
      AmbientAttends(cfg, s, step, v, j, msg, until);
    }
  }

  // ----- along a path -----

  /** Step a delivers the message to v, and nobody else is on the job. */
  ghost predicate DeliveredAlone(
      cfg: Settings, ws: seq<World>, steps: seq<Step>, a: nat, v: WorkerId, j: JobId, msg: nat)
    requires |ws| == |steps| + 1 && a < |steps|
  {
    && steps[a] == Deliver(v, msg) && CanDeliver(cfg, ws[a], v, msg)
    && ws[a].stream[msg].job == j && Unattended(ws[a], j)
  }

  /** Whatever claim or lease v takes from step a to step b, it takes in the margin. */
  ghost predicate TakesInMargin(
      cfg: Settings, ws: seq<World>, steps: seq<Step>, a: nat, b: nat, v: WorkerId, until: real)
    requires |ws| == |steps| + 1 && b <= |steps|
  {
    forall n :: a <= n < b ==> InMargin(cfg, ws[n], steps[n], v, until)
  }

  lemma DeliveryAttends(cfg: Settings, s: World, v: WorkerId, j: JobId, msg: nat)
    requires CanDeliver(cfg, s, v, msg) && s.stream[msg].job == j && Unattended(s, j)
    requires WithinTtl(cfg, s) && cfg.leaseTtl <= cfg.ackWait
    ensures Attended(Next(cfg, s, Deliver(v, msg)), v, j, msg, s.now + cfg.ackWait)
  {
    DeliverUnfolds(cfg, s, v, msg);
  }

  lemma DeliveryLink(cfg: Settings, ws: seq<World>, steps: seq<Step>, a: nat, v: WorkerId, j: JobId, msg: nat)
    requires Path(cfg, ws, steps) && a < |steps| && Reachable(cfg, ws[0]) && cfg.leaseTtl <= cfg.ackWait
    requires DeliveredAlone(cfg, ws, steps, a, v, j, msg)
    ensures Attended(ws[a + 1], v, j, msg, ws[a].now + cfg.ackWait)
  {
    ReachableWithinTtl(cfg, ws[0]);
    PathWithinTtl(cfg, ws, steps, a);
    DeliveryAttends(cfg, ws[a], v, j, msg);
    assert Linked(cfg, ws, steps, a);
  }

  lemma AttendedLink(
      cfg: Settings, ws: seq<World>, steps: seq<Step>, n: nat, v: WorkerId, j: JobId, msg: nat, until: real)
    requires Path(cfg, ws, steps) && AllBacked(cfg, ws, steps, j) && n < |steps| && Attended(ws[n], v, j, msg, until)
    requires DeliversNone(ws[n], steps[n], j) && InMargin(cfg, ws[n], steps[n], v, until)
    ensures Attended(ws[n + 1], v, j, msg, until)
  {
    assert Linked(cfg, ws, steps, n) && Backed(cfg, ws, steps, n, j);
    AttendedKeeps(cfg, ws[n], steps[n], v, j, msg, until);
  }

  lemma {:induction false} StaysAttended(
      cfg: Settings, ws: seq<World>, steps: seq<Step>, a: nat, b: nat, v: WorkerId, j: JobId, msg: nat, until: real)
    requires Path(cfg, ws, steps) && AllBacked(cfg, ws, steps, j) && a <= b < |ws| && Attended(ws[a], v, j, msg, until)
    requires NoDelivery(ws, steps, a, b, j) && TakesInMargin(cfg, ws, steps, a, b, v, until)
    ensures Attended(ws[b], v, j, msg, until)
  {
    if a < b {
      StaysAttended(cfg, ws, steps, a, b - 1, v, j, msg, until);
      AttendedLink(cfg, ws, steps, b - 1, v, j, msg, until);
    }
  }

  /** Claim and lease of the job are gone by the time its stored message is due. */
  ghost predicate Covered(s: World, j: JobId, msg: nat) {
    msg < |s.stream| && Stored(s.stream[msg].fate) ==>
      ExpiresBy(s, ClaimKey(j), DueAt(s.stream[msg].fate)) && ExpiresBy(s, LeaseKey(j), DueAt(s.stream[msg].fate))
  }

  /** v is the only worker on the job. */
  ghost predicate Sole(s: World, v: WorkerId, j: JobId) {
    forall u :: u in s.workers && s.workers[u].job == j ==> u == v
  }

  lemma DeathLink(cfg: Settings, ws: seq<World>, steps: seq<Step>, b: nat, v: WorkerId, j: JobId, msg: nat)
    requires Path(cfg, ws, steps) && b < |steps| && steps[b] == Die(v) && Sole(ws[b], v, j)
    requires Concerns(ws[b], msg, j) && Stored(ws[b].stream[msg].fate) && Covered(ws[b], j, msg)
    ensures Abandoned(ws[b + 1], j, msg, DueAt(ws[b].stream[msg].fate))
  {
    assert Linked(cfg, ws, steps, b);
  }

  /**
   A worker alone on its job, whose claim and lease were taken within ack_wait - lease_ttl of its
   delivery, has them expire by the time its message is due, unless it has answered with a nak.
   */
  lemma MarginCovers(cfg: Settings, ws: seq<World>, steps: seq<Step>, a: nat, b: nat, v: WorkerId, j: JobId, msg: nat)
    requires Path(cfg, ws, steps) && a < b < |steps| && Reachable(cfg, ws[0]) && cfg.leaseTtl <= cfg.ackWait
    requires DeliveredAlone(cfg, ws, steps, a, v, j, msg) && NoDelivery(ws, steps, a + 1, b, j)
    requires TakesInMargin(cfg, ws, steps, a + 1, b, v, ws[a].now + cfg.ackWait)
    ensures Sole(ws[b], v, j) && Concerns(ws[b], msg, j)
    ensures !ws[b].stream[msg].fate.Ready? ==> Covered(ws[b], j, msg)
  {
    BackedFromReachable(cfg, ws, steps, j);
    DeliveryLink(cfg, ws, steps, a, v, j, msg);
    StaysAttended(cfg, ws, steps, a + 1, b, v, j, msg, ws[a].now + cfg.ackWait);
  }

  lemma BackedFromReachable(cfg: Settings, ws: seq<World>, steps: seq<Step>, j: JobId)
    requires Path(cfg, ws, steps) && Reachable(cfg, ws[0])
    ensures AllBacked(cfg, ws, steps, j)
  {
    ReachableIsSafe(cfg, ws[0]);
    EverywhereBacked(cfg, ws, steps, j);
  }

  /** A message that is delivered later is stored now. */
  lemma StoredBefore(cfg: Settings, ws: seq<World>, steps: seq<Step>, b: nat, d: nat, w: WorkerId, msg: nat)
    requires Path(cfg, ws, steps) && b <= d < |steps| && CanDeliver(cfg, ws[d], w, msg) && msg < |ws[b].stream|
    ensures Stored(ws[b].stream[msg].fate)
  {
    PathGrows(cfg, ws, steps, b, d);
    assert SameLetter(ws[b].stream[msg], ws[d].stream[msg]);
  }

  /**
   A death whose leftovers are gone by the time the message is due: whatever happens before, between
   and after, the next delivery of the job is never turned away.
   */
  lemma CoveredDeathRecovers(
      cfg: Settings, ws: seq<World>, steps: seq<Step>, b: nat, d: nat, v: WorkerId, w: WorkerId, j: JobId, msg: nat)
    requires Path(cfg, ws, steps) && b < d < |steps| && Reachable(cfg, ws[0]) && steps[b] == Die(v)
    requires Sole(ws[b], v, j) && Concerns(ws[b], msg, j) && Covered(ws[b], j, msg)
    requires RedeliversAt(cfg, ws, steps, b + 1, d, w, j, msg)
    ensures Recovers(ws, steps, d, w, j, msg)
  {
    StoredBefore(cfg, ws, steps, b, d, w, msg);
    DeathLink(cfg, ws, steps, b, v, j, msg);
    AbandonedRecovers(cfg, ws, steps, b + 1, d, w, j, msg, DueAt(ws[b].stream[msg].fate));
  }

  /**
   First-redelivery recovery. v receives a message while nobody else is on its job, takes whatever
   claim and lease it takes within ack_wait - lease_ttl of that delivery, and dies; if it had naked the
   message, its leftovers are gone when the message is due again. The next delivery of the job goes to
   w, who is not killed. Whatever else happens, w is never turned away: it gets the claim and the lease,
   and its start ends, with its fifth effect at the latest, in an accepted STARTED if the job is still
   QUEUED or RUNNING then.
   */
  lemma FirstRedeliveryRecovers(
      cfg: Settings, ws: seq<World>, steps: seq<Step>, a: nat, b: nat, d: nat,
      v: WorkerId, w: WorkerId, j: JobId, msg: nat)
    requires Path(cfg, ws, steps) && a < b < d < |steps| && Reachable(cfg, ws[0]) && cfg.leaseTtl <= cfg.ackWait
    requires DeliveredAlone(cfg, ws, steps, a, v, j, msg) && NoDelivery(ws, steps, a + 1, b, j)
    requires TakesInMargin(cfg, ws, steps, a + 1, b, v, ws[a].now + cfg.ackWait) && steps[b] == Die(v)
    requires msg < |ws[b].stream| && ws[b].stream[msg].fate.Ready? ==> Covered(ws[b], j, msg)
    requires RedeliversAt(cfg, ws, steps, b + 1, d, w, j, msg)
    ensures Recovers(ws, steps, d, w, j, msg)
  {
    MarginCovers(cfg, ws, steps, a, b, v, j, msg);
    CoveredDeathRecovers(cfg, ws, steps, b, d, v, w, j, msg);
  }

  // ----- and otherwise -----

  /** From s, v dies, and the first delivery of the job after that is step d, to w, who is not killed. */
  ghost predicate DiesAndRedelivers(
      cfg: Settings, s: World, v: WorkerId, j: JobId, msg: nat, ws: seq<World>, steps: seq<Step>, d: nat, w: WorkerId)
  {
    && Path(cfg, ws, steps) && ws[0] == s && 0 < d < |steps| && steps[0] == Die(v)
    && RedeliversAt(cfg, ws, steps, 1, d, w, j, msg)
  }

  ghost predicate AlwaysRecovers(cfg: Settings, s: World, v: WorkerId, j: JobId, msg: nat) {
    forall ws, steps, d, w ::
      DiesAndRedelivers(cfg, s, v, j, msg, ws, steps, d, w) ==> Recovers(ws, steps, d, w, j, msg)
  }

  /** The handler has been turned away by somebody's claim or lease. */
  ghost predicate TurnedAway(s: World, w: WorkerId) {
    w in s.workers && (s.workers[w].pc == NakBusy || s.workers[w].pc == DropClaimBusy)
  }

  /** Not a point from which a start ends well. */
  ghost predicate NotArriving(s: World, w: WorkerId, j: JobId) {
    w in s.workers && s.workers[w].pc != WriteStarted && !InState(s, j, Succeeded)
  }

  lemma TurnedAwayFails(ws: seq<World>, steps: seq<Step>, d: nat, w: WorkerId, j: JobId, msg: nat)
    requires |ws| == |steps| + 1 && d < |steps| && TurnedAway(Last(ws), w)
    requires forall n :: d < n < |steps| ==> NotArriving(ws[n], w, j)
    ensures !Recovers(ws, steps, d, w, j, msg)
  {
    forall n | d < n < |steps| ensures !ArrivesAt(ws, steps, n, w, j) { assert NotArriving(ws[n], w, j); }
  }

  /** v has died, time has passed until the message is due, and what outlives that is still there. */
  ghost predicate DueAgain(s: World, t: World, v: WorkerId, msg: nat)
    requires msg < |s.stream| && Stored(s.stream[msg].fate)
  {
    && t.db == s.db && t.stream == s.stream && v !in t.workers && Due(t.stream[msg], t.now)
    && (forall k :: k in t.kv ==> k in s.kv)
    && (forall k ::
          k in s.kv && s.now < s.kv[k].expiresAt && DueAt(s.stream[msg].fate) < s.kv[k].expiresAt ==> k in t.kv)
  }

  lemma DiesAndWaits(cfg: Settings, s: World, v: WorkerId, msg: nat) returns (ws: seq<World>, steps: seq<Step>)
    requires msg < |s.stream| && Stored(s.stream[msg].fate)
    ensures Path(cfg, ws, steps) && |steps| == 2 && ws[0] == s && steps[0] == Die(v) && steps[1].Tick?
    ensures DueAgain(s, ws[2], v, msg)
  {
    var due := DueAt(s.stream[msg].fate);
    var dt := if due <= s.now then 0.0 else due - s.now;
    steps := [Die(v), Tick(dt)];
    var s1 := Next(cfg, s, Die(v));
    ws := [s, s1, Next(cfg, s1, Tick(dt))];
    assert Linked(cfg, ws, steps, 0) && Linked(cfg, ws, steps, 1);
  }

  /** The redelivery, to the worker that died and is back. */
  lemma Redelivers(cfg: Settings, s: World, v: WorkerId, msg: nat)
    requires CanDeliver(cfg, s, v, msg) && !s.stream[msg].payload.poison
    ensures var t := Next(cfg, s, Deliver(v, msg));
            && t.db == s.db && t.kv == s.kv && v in t.workers
            && t.workers[v].pc == CheckDone && t.workers[v].job == s.stream[msg].job
  {
    DeliverUnfolds(cfg, s, v, msg);
  }

  lemma BusyAtClaim(cfg: Settings, s: World, w: WorkerId, env: Env)
    requires w in s.workers && s.workers[w].pc == TakeClaim && ClaimKey(s.workers[w].job) in s.kv
    ensures var t := Next(cfg, s, Work(w, env)); t.db == s.db && TurnedAway(t, w)
  {
    var h := s.workers[w];
    WorkUnfolds(cfg, s, w, env);
    assert ActionAt(cfg, w, h, env) == Action.Take(ClaimKey(h.job), Owner(w, h.delivery.attempt), cfg.leaseTtl);
    assert Onward(cfg, h, No) == Some(NakBusy);
  }

  lemma BusyAtLease(cfg: Settings, s: World, w: WorkerId, env: Env)
    requires w in s.workers && s.workers[w].pc == TakeLease && LeaseKey(s.workers[w].job) in s.kv
    ensures var t := Next(cfg, s, Work(w, env)); t.db == s.db && TurnedAway(t, w)
  {
    var h := s.workers[w];
    WorkUnfolds(cfg, s, w, env);
    assert ActionAt(cfg, w, h, env) == Action.Take(LeaseKey(h.job), Owner(w, h.token), cfg.leaseTtl);
    assert Onward(cfg, h, No) == Some(DropClaimBusy);
  }

  /** A path that so far is nothing but v's death, the wait, the redelivery and effects of v. */
  ghost predicate Returning(
      cfg: Settings, s: World, v: WorkerId, j: JobId, msg: nat, ws: seq<World>, steps: seq<Step>)
  {
    && Path(cfg, ws, steps) && |steps| >= 3 && ws[0] == s
    && steps[0] == Die(v) && steps[1].Tick? && steps[2] == Deliver(v, msg)
    && CanDeliver(cfg, ws[2], v, msg) && !ws[2].stream[msg].payload.poison
    && (forall n :: 3 <= n < |steps| ==> steps[n].Work? && steps[n].worker == v)
    && (forall n :: 3 <= n < |steps| ==> NotArriving(ws[n], v, j))
    && Last(ws).db == s.db && v in Last(ws).workers && Last(ws).workers[v].job == j
  }

  lemma ReturnsOn(cfg: Settings, s: World, v: WorkerId, j: JobId, msg: nat, ws: seq<World>, steps: seq<Step>, t: World)
      returns (more: seq<World>, all: seq<Step>)
    requires Returning(cfg, s, v, j, msg, ws, steps) && NotArriving(Last(ws), v, j)
    requires t == Next(cfg, Last(ws), Work(v, Quick)) && t.db == s.db && v in t.workers && t.workers[v].job == j
    ensures Returning(cfg, s, v, j, msg, more, all) && Last(more) == t && |all| == |steps| + 1
  {
    PathExtends(cfg, ws, steps, Work(v, Quick));
    more, all := ws + [t], steps + [Work(v, Quick)];
    StillReturning(cfg, s, v, j, msg, ws, steps, t);
  }

  lemma StillReturning(
      cfg: Settings, s: World, v: WorkerId, j: JobId, msg: nat, ws: seq<World>, steps: seq<Step>, t: World)
    requires Returning(cfg, s, v, j, msg, ws, steps) && NotArriving(Last(ws), v, j)
    requires Path(cfg, ws + [t], steps + [Work(v, Quick)]) && t.db == s.db && v in t.workers && t.workers[v].job == j
    ensures Returning(cfg, s, v, j, msg, ws + [t], steps + [Work(v, Quick)])
  {
    var more := ws + [t];
    forall n | 3 <= n < |steps| + 1 ensures NotArriving(more[n], v, j) {
      if n < |steps| { assert NotArriving(ws[n], v, j); }
    }
  }

  const Quick := Env(true, 0, 5.0)

  lemma ReturningRedelivers(
      cfg: Settings, s: World, v: WorkerId, j: JobId, msg: nat, ws: seq<World>, steps: seq<Step>)
    requires Returning(cfg, s, v, j, msg, ws, steps)
    ensures DiesAndRedelivers(cfg, s, v, j, msg, ws, steps, 2, v)
  {}

  /** A death that leaves a job waiting: v is alone on an active job whose message can be delivered again. */
  ghost predicate LeavesWaiting(cfg: Settings, s: World, v: WorkerId, j: JobId, msg: nat) {
    && Sole(s, v, j) && Concerns(s, msg, j) && Stored(s.stream[msg].fate)
    && s.stream[msg].deliveries < cfg.maxDeliver && !s.stream[msg].payload.poison
    && j in s.db.jobs && Active(s.db.jobs[j].row.state)
  }

  lemma BackAtWork(cfg: Settings, s: World, v: WorkerId, j: JobId, msg: nat)
      returns (ws: seq<World>, steps: seq<Step>)
    requires LeavesWaiting(cfg, s, v, j, msg) && DoneKey(j) !in s.kv
    ensures Returning(cfg, s, v, j, msg, ws, steps) && |steps| == 4
    ensures Last(ws).workers[v].pc == TakeClaim
    ensures forall k :: k in s.kv && s.now < s.kv[k].expiresAt && DueAt(s.stream[msg].fate) < s.kv[k].expiresAt ==>
              k in Last(ws).kv
  {
    ws, steps := DiesAndWaits(cfg, s, v, msg);
    var t := ws[2];
    Redelivers(cfg, t, v, msg);
    PathExtends(cfg, ws, steps, Deliver(v, msg));
    var u := Next(cfg, t, Deliver(v, msg));
    ws, steps := ws + [u], steps + [Deliver(v, msg)];
    CheckDoneGoesOn(cfg, u, v, Quick);
    ws, steps := ReturnsOn(cfg, s, v, j, msg, ws, steps, Next(cfg, u, Work(v, Quick)));
  }

  lemma ToTheLease(cfg: Settings, s: World, v: WorkerId, j: JobId, msg: nat, ws: seq<World>, steps: seq<Step>)
      returns (more: seq<World>, all: seq<Step>)
    requires Returning(cfg, s, v, j, msg, ws, steps) && j in s.db.jobs && Active(s.db.jobs[j].row.state)
    requires Last(ws).workers[v].pc == TakeClaim && ClaimKey(j) !in Last(ws).kv
    ensures Returning(cfg, s, v, j, msg, more, all)
    ensures Last(more).workers[v].pc == TakeLease && (LeaseKey(j) in Last(ws).kv ==> LeaseKey(j) in Last(more).kv)
  {
    ClaimGoesOn(cfg, Last(ws), v, Quick);
    more, all := ReturnsOn(cfg, s, v, j, msg, ws, steps, Next(cfg, Last(ws), Work(v, Quick)));
    DrawGoesOn(cfg, Last(more), v, Quick);
    more, all := ReturnsOn(cfg, s, v, j, msg, more, all, Next(cfg, Last(more), Work(v, Quick)));
  }

  /** If claim or lease outlives the time at which the message is due, the next delivery may be turned away. */
  lemma UncoveredIsTurnedAway(cfg: Settings, s: World, v: WorkerId, j: JobId, msg: nat)
      returns (ws: seq<World>, steps: seq<Step>)
    requires Reachable(cfg, s) && LeavesWaiting(cfg, s, v, j, msg) && !Covered(s, j, msg)
    ensures DiesAndRedelivers(cfg, s, v, j, msg, ws, steps, 2, v) && TurnedAway(Last(ws), v)
    ensures !Recovers(ws, steps, 2, v, j, msg)
  {
    LiveEntries(cfg, s, j);
    ws, steps := BackAtWork(cfg, s, v, j, msg);
    if ClaimKey(j) in Last(ws).kv {
      BusyAtClaim(cfg, Last(ws), v, Quick);
    } else {
      ws, steps := ToTheLease(cfg, s, v, j, msg, ws, steps);
      BusyAtLease(cfg, Last(ws), v, Quick);
    }
    ws, steps := TurnsAway(cfg, s, v, j, msg, ws, steps);
  }

  lemma LiveEntries(cfg: Settings, s: World, j: JobId)
    requires Reachable(cfg, s) && j in s.db.jobs && Active(s.db.jobs[j].row.state)
    ensures DoneKey(j) !in s.kv && forall k :: k in s.kv ==> s.now < s.kv[k].expiresAt
  {
    ReachableIsSafe(cfg, s);
    AcksAreSound(cfg, s);
    EntriesLive(s);
  }

  lemma EntriesLive(s: World)
    requires forall k :: k in s.kv ==> EntryAlive(s, k)
    ensures forall k :: k in s.kv ==> s.now < s.kv[k].expiresAt
  {
    forall k | k in s.kv ensures s.now < s.kv[k].expiresAt { assert EntryAlive(s, k); }
  }

  lemma TurnsAway(cfg: Settings, s: World, v: WorkerId, j: JobId, msg: nat, ws: seq<World>, steps: seq<Step>)
      returns (more: seq<World>, all: seq<Step>)
    requires Returning(cfg, s, v, j, msg, ws, steps) && j in s.db.jobs && Active(s.db.jobs[j].row.state)
    requires Last(ws).workers[v].pc == TakeClaim || Last(ws).workers[v].pc == TakeLease
    requires var t := Next(cfg, Last(ws), Work(v, Quick)); t.db == s.db && TurnedAway(t, v)
    ensures DiesAndRedelivers(cfg, s, v, j, msg, more, all, 2, v) && TurnedAway(Last(more), v)
    ensures !Recovers(more, all, 2, v, j, msg)
  {
    var t := Next(cfg, Last(ws), Work(v, Quick));
    WorkUnfolds(cfg, Last(ws), v, Quick);
    WorkerKeepsJob(cfg, Last(ws), v, Quick);
    more, all := ReturnsOn(cfg, s, v, j, msg, ws, steps, t);
    ReturningRedelivers(cfg, s, v, j, msg, more, all);
    TurnedAwayFails(more, all, 2, v, j, msg);
  }

  /**
   Recovery on the first redelivery, exactly. A worker alone on an active job dies in a reachable state,
   its message stored and deliverable: every next delivery recovers, whatever else happens, if and only
   if claim and lease are gone by the time the message is due.
   */
  lemma RecoversExactly(cfg: Settings, s: World, v: WorkerId, j: JobId, msg: nat)
    requires Reachable(cfg, s) && LeavesWaiting(cfg, s, v, j, msg)
    ensures AlwaysRecovers(cfg, s, v, j, msg) <==> Covered(s, j, msg)
  {
    if Covered(s, j, msg) {
      forall ws, steps, d, w | DiesAndRedelivers(cfg, s, v, j, msg, ws, steps, d, w)
        ensures Recovers(ws, steps, d, w, j, msg)
      {
        CoveredDeathRecovers(cfg, ws, steps, 0, d, v, w, j, msg);
      }
    } else {
      var ws, steps := UncoveredIsTurnedAway(cfg, s, v, j, msg);
    }
  }
}
