/**
 The DLQ listener's quarantine of one message: copy, audit, delete, then ack the advisory. It may be
 killed after any of its effects and started over; here is what the re-runs leave behind.
 */
module Quarantines {
  import opened Core
  import opened Domain
  import opened Keys
  import opened Records
  import opened System
  import opened Safety
  import opened Frames
  import opened WorkerSteps
  import opened OtherSteps
  import opened Guarantees
  import opened NoLoss
  import opened Broker

  // ----- one quarantine, uninterrupted -----

  /** What a quarantine works on. */
  datatype Scene = Scene(db: Database, stream: seq<Message>, dlq: seq<nat>)

  function SceneOf(s: World): Scene {
    Scene(s.db, s.stream, s.dlq)
  }

  function Placed(s: World, c: Scene): World {
    s.(db := c.db, stream := c.stream, dlq := c.dlq)
  }

  function Acknowledged(c: Scene, msg: nat): Scene
    requires msg < |c.stream|
  {
    c.(stream := c.stream[msg := c.stream[msg].(advisory := Advisory.Settled)])
  }

  function WithCopy(c: Scene, msg: nat, inWindow: bool): Scene {
    c.(dlq := Copied(c.dlq, msg, inWindow))
  }

  function WithAudit(c: Scene, msg: nat): Scene
    requires msg < |c.stream|
  {
    c.(db := Recorded(c.db, c.stream[msg].job, DeadLetterWrite(c.stream[msg])))
  }

  function WithoutMessage(c: Scene, msg: nat): Scene {
    c.(stream := Resolve(c.stream, msg, Deleted))
  }

  /** `quarantine` without the ack: it raises on a message that is gone and on a job that is missing. */
  function Quarantined(c: Scene, msg: nat, inWindow: bool): Scene {
    if msg >= |c.stream| || !Stored(c.stream[msg].fate) then c
    else if c.stream[msg].job !in c.db.jobs then WithCopy(c, msg, inWindow)
    else WithoutMessage(WithAudit(WithCopy(c, msg, inWindow), msg), msg)
  }

  /** The record of a job after the audit of its exhausted message: dead-lettered if it was active. */
  predicate Audited(before: Job, after: Job, deliveries: nat) {
    if Active(before.row.state) then
      && after.row == before.row.(state := DeadLetter, attempts := after.row.attempts)
      && before.row.attempts <= after.row.attempts && deliveries <= after.row.attempts
      && (after.row.attempts == before.row.attempts || after.row.attempts == deliveries)
      && after.log == before.log + [JobEvent(DeadLettered, deliveries, None)]
    else after == before
  }

  /** A quarantine that does not raise, value by value. */
  predicate Clears(before: Scene, after: Scene, msg: nat)
    requires msg < |before.stream|
  {
    var m := before.stream[msg];
    && after.stream == before.stream[msg := m.(fate := Deleted)]
    && msg in after.dlq && before.dlq <= after.dlq
    && m.job in before.db.jobs && after.db.jobs.Keys == before.db.jobs.Keys
    && Audited(before.db.jobs[m.job], after.db.jobs[m.job], m.deliveries)
    && OthersUntouched(before.db, after.db, m.job)
    && after.db.byKey == before.db.byKey && after.db.outbox == before.db.outbox
  }

  /** It clears the work stream of the message whatever the job's state, unless it raises. */
  lemma QuarantinedClears(c: Scene, msg: nat, inWindow: bool)
    requires msg < |c.stream| && Stored(c.stream[msg].fate) && c.stream[msg].job in c.db.jobs
    ensures Clears(c, Quarantined(c, msg, inWindow), msg)
  {
    var m := c.stream[msg];
    RecordedStores(c.db, m.job, DeadLetterWrite(m));
  }

  method RunQuarantine(repo: Repository, js: JetStream, msg: nat, inWindow: bool) returns (raised: bool)
    requires repo.Valid()
    modifies repo, js
    ensures repo.Valid()
    ensures Scene(repo.Db(), js.stream, js.dlq) == Quarantined(old(Scene(repo.Db(), js.stream, js.dlq)), msg, inWindow)
    ensures raised <==> !(&& msg < |old(js.stream)| && Stored(old(js.stream)[msg].fate)
                          && old(js.stream)[msg].job in old(repo.Db()).jobs)
    ensures !raised ==>
              Clears(old(Scene(repo.Db(), js.stream, js.dlq)), Scene(repo.Db(), js.stream, js.dlq), msg)
  {
    if msg < |js.stream| && Stored(js.stream[msg].fate) && js.stream[msg].job in repo.Db().jobs {
      QuarantinedClears(Scene(repo.Db(), js.stream, js.dlq), msg, inWindow);
    }
    if msg >= |js.stream| || !Stored(js.stream[msg].fate) {
      return true;
    }
    var m := js.stream[msg];
    js.PublishCopy(msg, inWindow);
    var verdict := repo.ApplyEvent(m.job, DeadLetterWrite(m));
    if verdict == Missing {
      return true;
    }
    js.Delete(msg);
    return false;
  }

  // ----- killed and started over -----

  /** The scene after a listener has fetched the advisory and performed k effects. */
  function Partial(c: Scene, msg: nat, k: nat): Scene
    requires msg < |c.stream|
  {
    if c.stream[msg].advisory != Raised || k <= 1 then c
    else if !Stored(c.stream[msg].fate) then Acknowledged(c, msg)
    else if k == 2 then WithCopy(c, msg, true)
    else if k == 3 then WithAudit(WithCopy(c, msg, true), msg)
    else if k == 4 && c.stream[msg].job in c.db.jobs then Quarantined(c, msg, true)
    else Acknowledged(Quarantined(c, msg, true), msg)
  }

  const Complete: nat := 5

  lemma AuditTwice(db: Database, m: Message)
    ensures var once := Recorded(db, m.job, DeadLetterWrite(m)); Recorded(once, m.job, DeadLetterWrite(m)) == once
  {
    if m.job in db.jobs {
      var once := Written(db.jobs[m.job], DeadLetterWrite(m));
      assert Written(once, DeadLetterWrite(m)) == once;
    }
  }

  /** Whatever an attempt got done, a complete run after it ends where a complete run alone would. */
  lemma PartialIsHarmless(c: Scene, msg: nat, k: nat)
    requires msg < |c.stream|
    ensures |Partial(c, msg, k).stream| == |c.stream|
    ensures Partial(Partial(c, msg, k), msg, Complete) == Partial(c, msg, Complete)
  {
    AuditTwice(c.db, c.stream[msg]);
  }

  // ----- the same in the step system -----

  ghost function Listened(cfg: Settings, s: World, l: string, k: nat): World {
    if k == 0 then s else Next(cfg, Listened(cfg, s, l, k - 1), Listening(l, true))
  }

  /** A listener fetches the advisory, performs k effects and dies. */
  ghost function Attempt(cfg: Settings, s: World, l: string, msg: nat, k: nat): World {
    Next(cfg, Listened(cfg, Next(cfg, s, Fetch(l, msg)), l, k), ListenerDie(l))
  }

  /** The listener's position after k effects, if it is still at it. */
  ghost function Position(c: Scene, msg: nat, k: nat): Option<QuarantinePc>
    requires msg < |c.stream|
  {
    if c.stream[msg].advisory != Raised then None
    else if k == 0 then Some(Load)
    else if !Stored(c.stream[msg].fate) then (if k == 1 then Some(Settle) else None)
    else if k == 1 then Some(Copy)
    else if k == 2 then Some(Mark)
    else if k == 3 then Some(if c.stream[msg].job in c.db.jobs then Remove else Settle)
    else if k == 4 && c.stream[msg].job in c.db.jobs then Some(Settle)
    else None
  }

  ghost function Manned(s: World, l: string, msg: nat, pc: Option<QuarantinePc>): World {
    if pc.Some? then Listen(s, l, msg, pc.value) else s
  }

  lemma {:induction false} ListenedIs(cfg: Settings, s: World, l: string, msg: nat, k: nat)
    requires l !in s.listeners && msg < |s.stream|
    ensures Listened(cfg, Next(cfg, s, Fetch(l, msg)), l, k)
         == Performed(s, l, msg, k)
  {
    if k > 0 {
      ListenedIs(cfg, s, l, msg, k - 1);
      NextEffect(cfg, s, l, msg, k - 1);
    }
  }

  /** One effect of a quarantine: the scene after it, and the point it has come to. */
  ghost function Turn(c: Scene, msg: nat, pc: QuarantinePc): (Scene, Option<QuarantinePc>)
    requires msg < |c.stream|
  {
    match pc
    case Load => (c, Some(if Stored(c.stream[msg].fate) then Copy else Settle))
    case Copy => (WithCopy(c, msg, true), Some(Mark))
    case Mark => (WithAudit(c, msg), Some(if c.stream[msg].job in c.db.jobs then Remove else Settle))
    case Remove => (WithoutMessage(c, msg), Some(Settle))
    case Settle => (Acknowledged(c, msg), None)
  }

  lemma MarkIs(cfg: Settings, s: World, l: string, msg: nat)
    requires l !in s.listeners && msg < |s.stream|
    ensures var (d, next) := Turn(SceneOf(s), msg, Mark);
            Next(cfg, Listen(s, l, msg, Mark), Listening(l, true)) == Manned(Placed(s, d), l, msg, next)
  {
    ListenUnfolds(cfg, Listen(s, l, msg, Mark), l, true);
  }

  lemma SettleIs(cfg: Settings, s: World, l: string, msg: nat)
    requires l !in s.listeners && msg < |s.stream|
    ensures var (d, next) := Turn(SceneOf(s), msg, Settle);
            Next(cfg, Listen(s, l, msg, Settle), Listening(l, true)) == Manned(Placed(s, d), l, msg, next)
  {
    ListenUnfolds(cfg, Listen(s, l, msg, Settle), l, true);
    assert s.listeners[l := Quarantine(msg, Settle)] - {l} == s.listeners;
  }

  /** One effect of a listener at a given point, whatever came before. */
  lemma EffectIs(cfg: Settings, s: World, l: string, msg: nat, pc: QuarantinePc)
    requires l !in s.listeners && msg < |s.stream|
    ensures var (d, next) := Turn(SceneOf(s), msg, pc);
            Next(cfg, Listen(s, l, msg, pc), Listening(l, true)) == Manned(Placed(s, d), l, msg, next)
  {
    match pc
    case Mark => MarkIs(cfg, s, l, msg);
    case Settle => SettleIs(cfg, s, l, msg);
    case _ => ListenUnfolds(cfg, Listen(s, l, msg, pc), l, true);
  }

  /** One more effect is one more turn. */
  lemma PartialNext(c: Scene, msg: nat, k: nat)
    requires msg < |c.stream| && Position(c, msg, k).Some?
    ensures |Partial(c, msg, k).stream| == |c.stream|
    ensures Turn(Partial(c, msg, k), msg, Position(c, msg, k).value)
         == (Partial(c, msg, k + 1), Position(c, msg, k + 1))
  {}

  lemma PartialDone(c: Scene, msg: nat, k: nat)
    requires msg < |c.stream| && Position(c, msg, k).None?
    ensures Partial(c, msg, k + 1) == Partial(c, msg, k) && Position(c, msg, k + 1).None?
  {}

  /** The world of a listener that has performed k effects. */
  ghost function Performed(s: World, l: string, msg: nat, k: nat): World
    requires msg < |s.stream|
  {
    Manned(Placed(s, Partial(SceneOf(s), msg, k)), l, msg, Position(SceneOf(s), msg, k))
  }

  lemma NextEffect(cfg: Settings, s: World, l: string, msg: nat, k: nat)
    requires l !in s.listeners && msg < |s.stream|
    ensures Next(cfg, Performed(s, l, msg, k), Listening(l, true)) == Performed(s, l, msg, k + 1)
  {
    var c := SceneOf(s);
    if Position(c, msg, k).Some? {
      PartialNext(c, msg, k);
      TurnIs(cfg, s, l, msg, Partial(c, msg, k), Position(c, msg, k).value);
    } else {
      PartialDone(c, msg, k);
      ListenUnfolds(cfg, Performed(s, l, msg, k), l, true);
    }
  }

  lemma TurnIs(cfg: Settings, s: World, l: string, msg: nat, c: Scene, pc: QuarantinePc)
    requires l !in s.listeners && msg < |c.stream|
    ensures var (d, next) := Turn(c, msg, pc);
            Next(cfg, Listen(Placed(s, c), l, msg, pc), Listening(l, true)) == Manned(Placed(s, d), l, msg, next)
  {
    EffectIs(cfg, Placed(s, c), l, msg, pc);
  }

  lemma DeathUnmans(cfg: Settings, s: World, l: string, msg: nat, pc: Option<QuarantinePc>)
    requires l !in s.listeners
    ensures Next(cfg, Manned(s, l, msg, pc), ListenerDie(l)) == s
  {
    assert Manned(s, l, msg, pc).listeners - {l} == s.listeners;
  }

  lemma AttemptIs(cfg: Settings, s: World, l: string, msg: nat, k: nat)
    requires l !in s.listeners && msg < |s.stream|
    ensures Attempt(cfg, s, l, msg, k) == Placed(s, Partial(SceneOf(s), msg, k))
  {
    ListenedIs(cfg, s, l, msg, k);
    DeathUnmans(cfg, Placed(s, Partial(SceneOf(s), msg, k)), l, msg, Position(SceneOf(s), msg, k));
  }

  datatype Kill = Kill(listener: string, after: nat)

  /** The listeners to be killed are not at work already. */
  ghost predicate Strangers(s: World, kills: seq<Kill>) {
    forall i :: 0 <= i < |kills| ==> kills[i].listener !in s.listeners
  }

  ghost function Reruns(cfg: Settings, s: World, msg: nat, kills: seq<Kill>): World {
    if kills == [] then s
    else
      var last := kills[|kills| - 1];
      Attempt(cfg, Reruns(cfg, s, msg, kills[..|kills| - 1]), last.listener, msg, last.after)
  }

  /**
   Quarantine is safe to kill and re-run: after any number of attempts, each killed after any number
   of its effects, a complete run leaves the whole world as one complete run alone would: the same
   log, the same DLQ, the same stream.
   */
  lemma {:induction false} RerunsAreOneRun(cfg: Settings, s: World, msg: nat, kills: seq<Kill>, l: string)
    requires msg < |s.stream| && l !in s.listeners
    requires Strangers(s, kills)
    ensures var t := Reruns(cfg, s, msg, kills);
            && t.listeners == s.listeners && |t.stream| == |s.stream|
            && Attempt(cfg, t, l, msg, Complete) == Attempt(cfg, s, l, msg, Complete)
  {
    if kills != [] {
      var init, last := kills[..|kills| - 1], kills[|kills| - 1];
      RerunsAreOneRun(cfg, s, msg, init, l);
      var t := Reruns(cfg, s, msg, init);
      AttemptIs(cfg, t, last.listener, msg, last.after);
      PartialIsHarmless(SceneOf(t), msg, last.after);
      AttemptIs(cfg, t, l, msg, Complete);
      AttemptIs(cfg, Attempt(cfg, t, last.listener, msg, last.after), l, msg, Complete);
    }
  }

  // ----- a replay between the kill and the re-run -----

  ghost function LogAfter(s: World, j: JobId): Log {
    if j in s.db.jobs then s.db.jobs[j].log else []
  }

  ghost function DeadLetterOf(m: Message): JobEvent {
    EventOf(DeadLetterWrite(m))
  }

  /** An active job is dead-lettered by its first audit and a replay finds it so. */
  lemma AuditThenReplay(db: Database, m: Message)
    requires m.job in db.jobs && Active(db.jobs[m.job].row.state)
    ensures var once := Recorded(db, m.job, DeadLetterWrite(m)); var again := Reinjected(once, m.job);
            var log := db.jobs[m.job].log;
            && Reinjected(db, m.job) == db
            && once.jobs[m.job].log == log + [DeadLetterOf(m)]
            && again.jobs[m.job].log == log + [DeadLetterOf(m), EventOf(ReplayWrite)]
            && again.jobs[m.job].row.state == Queued
            && Recorded(again, m.job, DeadLetterWrite(m)).jobs[m.job].log
               == log + [DeadLetterOf(m), EventOf(ReplayWrite), DeadLetterOf(m)]
  {
    var log := db.jobs[m.job].log;
    assert log + [DeadLetterOf(m)] + [EventOf(ReplayWrite)] == log + [DeadLetterOf(m), EventOf(ReplayWrite)];
    assert log + [DeadLetterOf(m), EventOf(ReplayWrite)] + [DeadLetterOf(m)]
        == log + [DeadLetterOf(m), EventOf(ReplayWrite), DeadLetterOf(m)];
  }

  /** A quarantine that has everything still to do: advisory raised, message stored, job QUEUED or RUNNING. */
  ghost predicate Ripe(c: Scene, msg: nat) {
    && msg < |c.stream| && c.stream[msg].advisory == Raised && Stored(c.stream[msg].fate)
    && c.stream[msg].job in c.db.jobs && Active(c.db.jobs[c.stream[msg].job].row.state)
  }

  /** What killed attempts have made of the scene c, as far as log and message are concerned. */
  ghost predicate LeftBehind(c: Scene, d: Scene, msg: nat, audited: bool, removed: bool)
    requires msg < |c.stream|
  {
    && |d.stream| == |c.stream| && d.stream[msg].job == c.stream[msg].job
    && d.db == (if audited then WithAudit(c, msg).db else c.db)
    && (if removed then !Stored(d.stream[msg].fate) else d.stream == c.stream)
  }

  lemma AttemptLeaves(c: Scene, d: Scene, msg: nat, audited: bool, removed: bool, k: nat)
    requires Ripe(c, msg) && LeftBehind(c, d, msg, audited, removed) && (removed ==> audited)
    ensures LeftBehind(c, Partial(d, msg, k), msg, audited || k >= 3, removed || k >= 4)
  {
    AuditTwice(c.db, c.stream[msg]);
  }

  /** Some attempt got as far as its k-th effect. */
  ghost predicate SomeAfter(kills: seq<Kill>, k: nat) {
    exists i :: 0 <= i < |kills| && kills[i].after >= k
  }

  lemma SomeAfterInit(kills: seq<Kill>, k: nat)
    requires kills != []
    ensures SomeAfter(kills, k) <==> SomeAfter(kills[..|kills| - 1], k) || kills[|kills| - 1].after >= k
  {
    var init := kills[..|kills| - 1];
    if i :| 0 <= i < |init| && init[i].after >= k { assert kills[i].after >= k; }
    if i :| 0 <= i < |kills| && kills[i].after >= k { assert i < |init| ==> init[i].after >= k; }
  }

  lemma {:induction false} RerunsLeave(cfg: Settings, s: World, msg: nat, kills: seq<Kill>)
    requires Ripe(SceneOf(s), msg) && Strangers(s, kills)
    ensures Reruns(cfg, s, msg, kills).listeners == s.listeners
    ensures LeftBehind(SceneOf(s), SceneOf(Reruns(cfg, s, msg, kills)), msg, SomeAfter(kills, 3), SomeAfter(kills, 4))
  {
    if kills != [] {
      var init, last := kills[..|kills| - 1], kills[|kills| - 1];
      RerunsLeave(cfg, s, msg, init);
      var t := Reruns(cfg, s, msg, init);
      SomeAfterInit(kills, 3);
      SomeAfterInit(kills, 4);
      AttemptIs(cfg, t, last.listener, msg, last.after);
      AttemptLeaves(SceneOf(s), SceneOf(t), msg, SomeAfter(init, 3), SomeAfter(init, 4), last.after);
    }
  }

  /** The log after a replay and a complete run on what the kills left behind. */
  lemma ReplayedLog(c: Scene, d: Scene, msg: nat, audited: bool, removed: bool)
    requires Ripe(c, msg) && LeftBehind(c, d, msg, audited, removed) && (removed ==> audited)
    ensures var m := c.stream[msg]; var log := c.db.jobs[m.job].log;
            var after := Partial(d.(db := Reinjected(d.db, m.job)), msg, Complete).db.jobs;
            && m.job in after
            && after[m.job].log ==
               if !audited then log + [DeadLetterOf(m)]
               else if !removed then log + [DeadLetterOf(m), EventOf(ReplayWrite), DeadLetterOf(m)]
               else log + [DeadLetterOf(m), EventOf(ReplayWrite)]
  {
    AuditThenReplay(c.db, c.stream[msg]);
  }

  /** Some kill fell between audit and delete, and none later. */
  ghost predicate KilledInBetween(kills: seq<Kill>) {
    && (exists i :: 0 <= i < |kills| && kills[i].after == 3)
    && (forall i :: 0 <= i < |kills| ==> kills[i].after <= 3)
  }

  lemma InBetweenIs(kills: seq<Kill>)
    ensures KilledInBetween(kills) <==> SomeAfter(kills, 3) && !SomeAfter(kills, 4)
  {}

  /** Attempts killed, a replay by an operator, further attempts killed, and a complete run. */
  ghost function ReplayedBetween(cfg: Settings, s: World, msg: nat, kills: seq<Kill>, more: seq<Kill>, l: string): World
    requires msg < |s.stream|
  {
    var replayed := Next(cfg, Reruns(cfg, s, msg, kills), ReplayJob(s.stream[msg].job));
    Attempt(cfg, Reruns(cfg, replayed, msg, more), l, msg, Complete)
  }

  /**
   "Re-running is safe at every point" does not extend to a replay in between. After any number of
   killed attempts, a replay, any number of killed attempts and a complete run, the job has been
   dead-lettered a second time if and only if, before the replay, some attempt was killed between
   audit and delete and none later. If none got as far as the audit there is nothing to replay; if one
   got as far as the delete the re-run finds the message gone.
   */
  lemma ReplayBetween(cfg: Settings, s: World, msg: nat, kills: seq<Kill>, more: seq<Kill>, l: string)
    requires Ripe(SceneOf(s), msg) && Strangers(s, kills) && Strangers(s, more) && l !in s.listeners
    ensures var m := s.stream[msg]; var log := s.db.jobs[m.job].log;
            var after := LogAfter(ReplayedBetween(cfg, s, msg, kills, more, l), m.job);
            && (after == log + [DeadLetterOf(m), EventOf(ReplayWrite), DeadLetterOf(m)] <==> KilledInBetween(kills))
            && (!SomeAfter(kills, 3) ==> after == log + [DeadLetterOf(m)])
            && (SomeAfter(kills, 4) ==> after == log + [DeadLetterOf(m), EventOf(ReplayWrite)])
  {
    var t := Reruns(cfg, s, msg, kills);
    var u := Next(cfg, t, ReplayJob(s.stream[msg].job));
    RerunsLeave(cfg, s, msg, kills);
    RerunsAreOneRun(cfg, u, msg, more, l);
    AttemptIs(cfg, u, l, msg, Complete);
    LaterIsEarlier(kills);
    ReplayedLog(SceneOf(s), SceneOf(t), msg, SomeAfter(kills, 3), SomeAfter(kills, 4));
    InBetweenIs(kills);
  }

  lemma LaterIsEarlier(kills: seq<Kill>)
    ensures SomeAfter(kills, 4) ==> SomeAfter(kills, 3)
  {}

  // ----- any interleaving -----

  /** However quarantines, replays and workers interleave, a job is dead-lettered at most once per life. */
  lemma OneDeadLetterPerLife(cfg: Settings, s: World, j: JobId)
    requires Reachable(cfg, s) && j in s.db.jobs
    ensures var log := LogIn(s, j); Count(log, Replayed) <= Count(log, DeadLettered) <= Count(log, Replayed) + 1
  {
    JobIsOk(cfg, s, j);
    LegalShape(LogIn(s, j));
  }

  ghost predicate NoCopyTwice(dlq: seq<nat>) {
    forall a, b :: 0 <= a < b < |dlq| ==> dlq[a] != dlq[b]
  }

  lemma DlqMoves(cfg: Settings, s: World, step: Step)
    ensures var t := Next(cfg, s, step);
            || t.dlq == s.dlq
            || (step.Listening? && step.listener in s.listeners
                && t.dlq == Copied(s.dlq, s.listeners[step.listener].msg, step.inWindow))
  {
    match step
    case Work(w, env) =>
      WorkUnfolds(cfg, s, w, env);
      if w in s.workers { EffectFramed(s, s.workers[w], ActionAt(cfg, w, s.workers[w], env)); }
    case Listening(_, _) =>
    case _ => PeersFrame(cfg, s, step);
  }

  /** Inside the dedupe window the DLQ never holds two copies of a message. */
  lemma {:induction false} NoDuplicateCopies(cfg: Settings, ws: seq<World>, steps: seq<Step>, n: nat)
    requires IsRun(cfg, ws, steps) && n < |ws|
    requires forall i :: 0 <= i < |steps| && steps[i].Listening? ==> steps[i].inWindow
    ensures NoCopyTwice(ws[n].dlq)
  {
    if n > 0 {
      NoDuplicateCopies(cfg, ws, steps, n - 1);
      assert Linked(cfg, ws, steps, n - 1);
      DlqMoves(cfg, ws[n - 1], steps[n - 1]);
    }
  }

  // ----- re-runs in any interleaving -----

  ghost function Copies(dlq: seq<nat>, msg: nat): nat {
    if dlq == [] then 0 else Copies(dlq[..|dlq| - 1], msg) + if dlq[|dlq| - 1] == msg then 1 else 0
  }

  lemma {:induction false} CopiesInDlq(dlq: seq<nat>, msg: nat)
    ensures msg in dlq <==> Copies(dlq, msg) > 0
  {
    if dlq != [] {
      var n := |dlq| - 1;
      CopiesInDlq(dlq[..n], msg);
      assert dlq == dlq[..n] + [dlq[n]];
    }
  }

  lemma CopiedOnce(dlq: seq<nat>, copied: nat, msg: nat)
    ensures var after := Copies(Copied(dlq, copied, true), msg);
            after == Copies(dlq, msg) || (Copies(dlq, msg) == 0 && after == 1)
  {
    CopiesInDlq(dlq, msg);
    assert (dlq + [copied])[..|dlq|] == dlq;
  }

  /** Inside the window, from m to n. */
  ghost predicate InWindow(steps: seq<Step>, m: nat, n: nat)
    requires n <= |steps|
  {
    forall i :: m <= i < n && steps[i].Listening? ==> steps[i].inWindow
  }

  lemma {:induction false} CopiesAlong(cfg: Settings, ws: seq<World>, steps: seq<Step>, m: nat, n: nat, msg: nat)
    requires Path(cfg, ws, steps) && m <= n < |ws| && InWindow(steps, m, n)
    ensures var before, after := Copies(ws[m].dlq, msg), Copies(ws[n].dlq, msg);
            after == before || (before == 0 && after == 1)
  {
    if m < n {
      CopiesAlong(cfg, ws, steps, m, n - 1, msg);
      CopiesLink(cfg, ws, steps, n - 1, msg);
    }
  }

  lemma CopiesLink(cfg: Settings, ws: seq<World>, steps: seq<Step>, n: nat, msg: nat)
    requires Path(cfg, ws, steps) && n < |steps| && (steps[n].Listening? ==> steps[n].inWindow)
    ensures var before, after := Copies(ws[n].dlq, msg), Copies(ws[n + 1].dlq, msg);
            after == before || (before == 0 && after == 1)
  {
    assert Linked(cfg, ws, steps, n);
    DlqMoves(cfg, ws[n], steps[n]);
    if steps[n].Listening? && steps[n].listener in ws[n].listeners {
      CopiedOnce(ws[n].dlq, ws[n].listeners[steps[n].listener].msg, msg);
    }
  }

  ghost function ReplaysOf(s: World, j: JobId): nat {
    Count(LogAfter(s, j), Replayed)
  }

  lemma RecordedReplays(db: Database, id: JobId, w: Write, j: JobId)
    requires w.event != Replayed && j in db.jobs
    ensures var after := Recorded(db, id, w).jobs;
            j in after && Count(after[j].log, Replayed) == Count(db.jobs[j].log, Replayed)
  {
    if id == j { CountAppend(db.jobs[j].log, EventOf(w), Replayed); }
  }

  lemma WorkerReplaysNothing(cfg: Settings, s: World, w: WorkerId, env: Env, j: JobId)
    requires w in s.workers && j in s.db.jobs
    ensures var t := WorkerStep(cfg, s, w, env); j in t.db.jobs && ReplaysOf(t, j) == ReplaysOf(s, j)
  {
    var h := s.workers[w];
    ActionShape(cfg, w, h, env);
    var a := ActionAt(cfg, w, h, env);
    if a.Commit? { RecordedReplays(s.db, h.job, a.write, j); }
    EffectDb(s, h, a);
  }

  lemma EffectDb(s: World, h: Handler, a: Action)
    ensures Effect(s, h, a).db == if a.Commit? then Recorded(s.db, h.job, a.write) else s.db
  {}

  lemma ReplaysStay(cfg: Settings, s: World, step: Step, j: JobId)
    requires j in s.db.jobs && step != ReplayJob(j)
    ensures var t := Next(cfg, s, step); j in t.db.jobs && ReplaysOf(t, j) == ReplaysOf(s, j)
  {
    match step
    case SubmitJob(_, _, _) =>
    case ReplayJob(_) =>
    case Work(w, env) =>
      WorkUnfolds(cfg, s, w, env);
      if w in s.workers { WorkerReplaysNothing(cfg, s, w, env, j); }
    case Listening(l, inWindow) =>
      ListenUnfolds(cfg, s, l, inWindow);
      if l in s.listeners { ListenerReplaysNothing(s, l, inWindow, j); }
    case _ => TablesFrame(cfg, s, step);
  }

  lemma ListenerReplaysNothing(s: World, l: string, inWindow: bool, j: JobId)
    requires l in s.listeners && j in s.db.jobs
    ensures var t := ListenerStep(s, l, inWindow); j in t.db.jobs && ReplaysOf(t, j) == ReplaysOf(s, j)
  {
    ListenerWrites(s, l, inWindow);
    var i := s.listeners[l].msg;
    if i < |s.stream| { RecordedReplays(s.db, s.stream[i].job, DeadLetterWrite(s.stream[i]), j); }
  }

  ghost predicate NotReplayed(steps: seq<Step>, m: nat, n: nat, j: JobId)
    requires n <= |steps|
  {
    forall i :: m <= i < n ==> steps[i] != ReplayJob(j)
  }

  lemma {:induction false} ReplaysAlong(cfg: Settings, ws: seq<World>, steps: seq<Step>, m: nat, n: nat, j: JobId)
    requires Path(cfg, ws, steps) && m <= n < |ws| && j in ws[m].db.jobs && NotReplayed(steps, m, n, j)
    ensures j in ws[n].db.jobs && ReplaysOf(ws[n], j) == ReplaysOf(ws[m], j)
  {
    if m < n {
      ReplaysAlong(cfg, ws, steps, m, n - 1, j);
      ReplaysLink(cfg, ws, steps, n - 1, j);
    }
  }

  lemma ReplaysLink(cfg: Settings, ws: seq<World>, steps: seq<Step>, n: nat, j: JobId)
    requires Path(cfg, ws, steps) && n < |steps| && j in ws[n].db.jobs && steps[n] != ReplayJob(j)
    ensures j in ws[n + 1].db.jobs && ReplaysOf(ws[n + 1], j) == ReplaysOf(ws[n], j)
  {
    assert Linked(cfg, ws, steps, n);
    ReplaysStay(cfg, ws[n], steps[n], j);
  }

  lemma DeadLettersAt(cfg: Settings, ws: seq<World>, steps: seq<Step>, n: nat, j: JobId)
    requires IsRun(cfg, ws, steps) && n < |ws| && j in ws[n].db.jobs
    ensures Count(LogIn(ws[n], j), DeadLettered) == ReplaysOf(ws[n], j) + Bit(InState(ws[n], j, DeadLetter))
  {
    GenesisIsSafe(cfg);
    RowsFold(cfg, ws, steps, n, j);
    LegalShape(LogIn(ws[n], j));
  }

  /**
   Re-runs in any interleaving: between two moments of a run, however many listeners fetch, work on and
   drop the message, and whatever everybody else does short of a replay of the job, its log gains at
   most one DEAD_LETTERED, and none if it was in DEAD_LETTER; and inside the dedupe window a message
   gains at most one copy in the DLQ, and none if it had one.
   */
  lemma RerunsInAnyInterleaving(
      cfg: Settings, ws: seq<World>, steps: seq<Step>, m: nat, n: nat, j: JobId, msg: nat)
    requires IsRun(cfg, ws, steps) && m <= n < |ws| && j in ws[m].db.jobs
    requires NotReplayed(steps, m, n, j) && InWindow(steps, m, n)
    ensures j in ws[n].db.jobs
    ensures Count(LogIn(ws[n], j), DeadLettered) + Bit(InState(ws[m], j, DeadLetter))
         == Count(LogIn(ws[m], j), DeadLettered) + Bit(InState(ws[n], j, DeadLetter))
    ensures || Copies(ws[n].dlq, msg) == Copies(ws[m].dlq, msg)
            || (Copies(ws[m].dlq, msg) == 0 && Copies(ws[n].dlq, msg) == 1)
  {
    ReplaysAlong(cfg, ws, steps, m, n, j);
    DeadLettersAt(cfg, ws, steps, m, j);
    DeadLettersAt(cfg, ws, steps, n, j);
    CopiesAlong(cfg, ws, steps, m, n, msg);
  }
}
