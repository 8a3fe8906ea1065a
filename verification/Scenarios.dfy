/**
 Runs under the default settings in which the platform does what its documentation rules out: a paused
 worker and a swallowed error lose a job, a replay is undone, and a redelivery is turned away.
 */
module Scenarios {
  import opened Core
  import opened Domain
  import opened Keys
  import opened Records
  import opened System
  import opened Safety
  import opened NoLoss
  import opened Carriers
  import opened Recovery
  import opened Quarantines
  import opened Loss

  const Defaults := Settings(20.0, 3600.0, 30.0, 5, 100)
  const Body := Payload(1000, 0.5, false)
  const Venom := Payload(1000, 0.5, true)
  const Good := Env(true, 7, 5.0)
  const Bad := Env(false, 0, 5.0)

  ghost predicate Reached(s: World) {
    Reachable(Defaults, s)
  }

  lemma ReachCheck(s: World, w: WorkerId) returns (t: World)
    requires Reached(s) && w in s.workers && s.workers[w].pc == CheckDone && DoneKey(s.workers[w].job) !in s.kv
    ensures Reached(t) && t == s.(workers := s.workers[w := s.workers[w].(pc := TakeClaim)])
  {
    ReachableNext(Defaults, s, Work(w, Good));
    CheckDoneGoesOn(Defaults, s, w, Good);
    t := Next(Defaults, s, Work(w, Good));
  }

  lemma ReachClaim(s: World, w: WorkerId) returns (t: World)
    requires Reached(s) && w in s.workers && s.workers[w].pc == TakeClaim && ClaimKey(s.workers[w].job) !in s.kv
    ensures var h := s.workers[w];
            Reached(t) && t == s.(
              kv := KV.Take(s.kv, s.now, ClaimKey(h.job), Owner(w, h.delivery.attempt), 20.0),
              workers := s.workers[w := h.(pc := DrawToken, claimUntil := s.now + 20.0)])
  {
    ReachableNext(Defaults, s, Work(w, Good));
    ClaimGoesOn(Defaults, s, w, Good);
    t := Next(Defaults, s, Work(w, Good));
  }

  lemma ReachDraw(s: World, w: WorkerId) returns (t: World)
    requires Reached(s) && w in s.workers && s.workers[w].pc == DrawToken
    ensures var h := s.workers[w];
            Reached(t) && t == s.(
              issued := s.issued[h.job := Issued(s, h.job) + [h.delivery]],
              workers := s.workers[w := h.(pc := TakeLease, token := |Issued(s, h.job)| + 1)])
  {
    ReachableNext(Defaults, s, Work(w, Good));
    DrawGoesOn(Defaults, s, w, Good);
    t := Next(Defaults, s, Work(w, Good));
  }

  lemma ReachLease(s: World, w: WorkerId) returns (t: World)
    requires Reached(s) && w in s.workers && s.workers[w].pc == TakeLease && LeaseKey(s.workers[w].job) !in s.kv
    ensures var h := s.workers[w];
            Reached(t) && t == s.(
              kv := KV.Take(s.kv, s.now, LeaseKey(h.job), Owner(w, h.token), 20.0),
              workers := s.workers[w := h.(pc := WriteStarted)])
  {
    ReachableNext(Defaults, s, Work(w, Good));
    LeaseGoesOn(Defaults, s, w, Good);
    t := Next(Defaults, s, Work(w, Good));
  }

  lemma ReachWrite(s: World, w: WorkerId) returns (t: World)
    requires Reached(s) && w in s.workers && s.workers[w].pc == WriteStarted
    requires JudgeIn(s.db, s.workers[w].job, WorkerWrite(s.workers[w], Started)) == Accepted
    ensures var h := s.workers[w];
            Reached(t) && t == s.(
              db := Recorded(s.db, h.job, WorkerWrite(h, Started)), workers := s.workers[w := h.(pc := Execute)])
  {
    ReachableNext(Defaults, s, Work(w, Good));
    StartGoesOn(Defaults, s, w, Good);
    t := Next(Defaults, s, Work(w, Good));
  }

  lemma Overwritten(m: map<WorkerId, Handler>, w: WorkerId, g: Handler, h: Handler)
    ensures m[w := g][w := h] == m[w := h]
  {}

  /** The store after `w` has taken claim and, under `token`, lease. */
  ghost function Claimed(s: World, w: WorkerId, h: Handler): map<Key, KV.Entry<Owner>> {
    KV.Take(s.kv, s.now, ClaimKey(h.job), Owner(w, h.delivery.attempt), 20.0)
  }

  ghost function Leased(s: World, w: WorkerId, h: Handler, token: nat): map<Key, KV.Entry<Owner>> {
    KV.Take(Claimed(s, w, h), s.now, LeaseKey(h.job), Owner(w, token), 20.0)
  }

  lemma ReachToken(s: World, w: WorkerId) returns (t: World)
    requires Reached(s) && w in s.workers && s.workers[w].pc == CheckDone
    requires var j := s.workers[w].job; DoneKey(j) !in s.kv && ClaimKey(j) !in s.kv
    ensures var h := s.workers[w]; var j := h.job;
            && Reached(t) && |Issued(t, j)| == |Issued(s, j)| + 1 && t.kv == Claimed(s, w, h)
            && t.now == s.now && t.db == s.db && t.stream == s.stream && t.listeners == s.listeners
            && t.workers == s.workers[w := h.(pc := TakeLease, claimUntil := s.now + 20.0, token := |Issued(s, j)| + 1)]
  {
    var h := s.workers[w];
    var s1 := ReachCheck(s, w);
    var s2 := ReachClaim(s1, w);
    Overwritten(s.workers, w, s1.workers[w], s2.workers[w]);
    assert s2.workers == s.workers[w := h.(pc := DrawToken, claimUntil := s.now + 20.0)];
    t := ReachDraw(s2, w);
    Overwritten(s.workers, w, s2.workers[w], t.workers[w]);
  }

  /** A fresh handler that finds no marker, claim or lease runs straight into its execution. */
  lemma ReachStart(s: World, w: WorkerId) returns (t: World)
    requires Reached(s) && w in s.workers && s.workers[w].pc == CheckDone
    requires var j := s.workers[w].job;
             && DoneKey(j) !in s.kv && ClaimKey(j) !in s.kv && LeaseKey(j) !in s.kv
             && j in s.db.jobs && Active(s.db.jobs[j].row.state) && s.db.jobs[j].row.fence <= |Issued(s, j)|
    ensures var h := s.workers[w]; var j := h.job;
            var g := h.(pc := Execute, claimUntil := s.now + 20.0, token := |Issued(s, j)| + 1);
            && Reached(t) && t.workers == s.workers[w := g]
            && j in t.db.jobs && t.db.jobs[j].row.state == Running && t.db.jobs[j].row.fence == g.token
            && t.stream == s.stream && t.now == s.now && t.db.outbox == s.db.outbox && t.listeners == s.listeners
            && |Issued(t, j)| == |Issued(s, j)| + 1 && t.kv == Leased(s, w, h, g.token)
  {
    var s3 := ReachToken(s, w);
    var s4 := ReachLease(s3, w);
    Overwritten(s.workers, w, s3.workers[w], s4.workers[w]);
    StartIsAccepted(s4.db.jobs[s.workers[w].job].row, s4.workers[w]);
    t := ReachWrite(s4, w);
    Overwritten(s.workers, w, s4.workers[w], t.workers[w]);
  }

  ghost predicate JobIs(s: World, state: JobState, fence: int) {
    "j" in s.db.jobs && s.db.jobs["j"].row.state == state && s.db.jobs["j"].row.fence == fence
  }

  ghost predicate LetterIs(s: World, deliveries: nat, fate: Fate) {
    s.stream == [Message("j", 0, Body, deliveries, fate, NotRaised)]
  }

  ghost function Tables(p: Payload, published: bool): Database {
    Database(map["j" := Job(NewRow("k", p), FirstEvents)], map["k" := "j"], [OutboxRow("j", p, published)])
  }

  lemma Submits(p: Payload) returns (s: World)
    ensures Reached(s) && s == Genesis.(db := Tables(p, false))
  {
    GenesisIsReachable(Defaults);
    ReachableNext(Defaults, Genesis, SubmitJob("j", "k", p));
    s := Next(Defaults, Genesis, SubmitJob("j", "k", p));
  }

  lemma Selects(p: Payload) returns (s: World)
    ensures Reached(s) && s == Genesis.(db := Tables(p, false), relays := map["r" := Relay([0], 0)])
  {
    var s0 := Submits(p);
    ReachableNext(Defaults, s0, RelaySelect("r"));
    assert Locked(s0.relays) == {};
    assert SelectFrom(s0.db.outbox, {}, 99, 1) == [];
    assert SelectFrom(s0.db.outbox, {}, 100, 0) == [0];
    s := Next(Defaults, s0, RelaySelect("r"));
  }

  lemma Sends(p: Payload) returns (s: World)
    ensures Reached(s)
    ensures s == Genesis.(db := Tables(p, false), stream := [Message("j", 0, p, 0, Ready(0.0), NotRaised)],
                          relays := map["r" := Relay([0], 1)])
  {
    var s0 := Selects(p);
    ReachableNext(Defaults, s0, RelayWork("r", true));
    s := Next(Defaults, s0, RelayWork("r", true));
    assert s.stream == [Message("j", 0, p, 0, Ready(0.0), NotRaised)];
    assert s.relays == map["r" := Relay([0], 1)];
  }

  /** The job's message waits in the stream; the relay has marked its row, or died before it could. */
  lemma Publishes(p: Payload, marked: bool) returns (s: World)
    ensures Reached(s)
    ensures s == Genesis.(db := Tables(p, marked), stream := [Message("j", 0, p, 0, Ready(0.0), NotRaised)])
  {
    var s0 := Sends(p);
    var step := if marked then RelayWork("r", true) else RelayDie("r");
    ReachableNext(Defaults, s0, step);
    s := Next(Defaults, s0, step);
    assert s.relays == map[];
    assert s.db.outbox == [OutboxRow("j", p, marked)];
  }

  /** Worker a starts the job and pauses, past the expiry of its claim and of its delivery. */
  lemma APauses(marked: bool) returns (s: World)
    ensures Reached(s) && s.now == 30.0 && s.kv == map[] && |Issued(s, "j")| == 1
    ensures s.workers == map["a" := Handler("j", Delivery(0, 1), Execute, 1, 20.0, 0)] && s.listeners == map[]
    ensures JobIs(s, Running, 1) && LetterIs(s, 1, InFlight(30.0)) && s.db.outbox == [OutboxRow("j", Body, marked)]
  {
    var s0 := Publishes(Body, marked);
    var s1 := ReachDelivery(s0, "a", 0);
    var s2 := ReachStart(s1, "a");
    s := ReachTick(s2, 30.0);
    assert s.kv == map[];
  }

  /** The broker delivers the only message for the (n + 1)-th time. */
  lemma ReachDelivery(s: World, w: WorkerId, n: nat) returns (t: World)
    requires Reached(s) && w !in s.workers && |s.stream| == 1 && Due(s.stream[0], s.now) && n < 5
    requires s.stream[0].deliveries == n && !s.stream[0].payload.poison
    ensures Reached(t) && t.now == s.now && t.kv == s.kv && t.issued == s.issued && t.db == s.db
    ensures t.listeners == s.listeners
    ensures t.workers == s.workers[w := Handler(s.stream[0].job, Delivery(0, n + 1), CheckDone, 0, 0.0, 0)]
    ensures t.stream == [s.stream[0].(deliveries := n + 1, fate := InFlight(s.now + 30.0))]
  {
    ReachableNext(Defaults, s, Deliver(w, 0));
    t := Next(Defaults, s, Deliver(w, 0));
    DeliverUnfolds(Defaults, s, w, 0);
  }

  lemma ReachTick(s: World, dt: real) returns (t: World)
    requires Reached(s) && dt >= 0.0
    ensures Reached(t) && t == s.(now := s.now + dt, kv := KV.Sweep(s.kv, s.now + dt))
  {
    ReachableNext(Defaults, s, Tick(dt));
    t := Next(Defaults, s, Tick(dt));
  }

  /** Worker b takes over, fails, and puts the job back to QUEUED. */
  lemma BRequeues(marked: bool) returns (s: World)
    ensures Reached(s) && s.listeners == map[]
    ensures s.workers == map["a" := Handler("j", Delivery(0, 1), Execute, 1, 20.0, 0),
                             "b" := Handler("j", Delivery(0, 2), DropClaimRetry, 2, 50.0, 0)]
    ensures JobIs(s, Queued, 2) && LetterIs(s, 2, InFlight(60.0)) && s.db.outbox == [OutboxRow("j", Body, marked)]
  {
    var s2 := BTakesOver(marked);
    var s3 := ReachFailure(s2, "b");
    s := ReachRequeue(s3, "b");
  }

  lemma BTakesOver(marked: bool) returns (s: World)
    ensures Reached(s) && s.listeners == map[]
    ensures s.workers == map["a" := Handler("j", Delivery(0, 1), Execute, 1, 20.0, 0),
                             "b" := Handler("j", Delivery(0, 2), Execute, 2, 50.0, 0)]
    ensures JobIs(s, Running, 2) && LetterIs(s, 2, InFlight(60.0)) && s.db.outbox == [OutboxRow("j", Body, marked)]
  {
    var s0 := APauses(marked);
    var s1 := ReachDelivery(s0, "b", 1);
    s := BStarts(s1);
  }

  lemma BStarts(s: World) returns (t: World)
    requires Reached(s) && s.kv == map[] && |Issued(s, "j")| == 1 && JobIs(s, Running, 1)
    requires "b" in s.workers && s.workers["b"] == Handler("j", Delivery(0, 2), CheckDone, 0, 0.0, 0)
    ensures Reached(t) && t.stream == s.stream && t.db.outbox == s.db.outbox && JobIs(t, Running, 2)
    ensures t.listeners == s.listeners && t.now == s.now
    ensures t.workers == s.workers["b" := Handler("j", Delivery(0, 2), Execute, 2, s.now + 20.0, 0)]
  {
    t := ReachStart(s, "b");
  }

  lemma ReachFailure(s: World, w: WorkerId) returns (t: World)
    requires Reached(s) && w in s.workers && s.workers[w].pc == Execute && s.workers[w].delivery.attempt < 5
    ensures Reached(t) && t.db == s.db && t.stream == s.stream && t.kv == s.kv && t.now == s.now
    ensures t.issued == s.issued && t.listeners == s.listeners
    ensures t.workers == s.workers[w := s.workers[w].(pc := WriteRequeued, result := 0)]
  {
    ReachableNext(Defaults, s, Work(w, Bad));
    FailsExecution(s, w);
    t := Next(Defaults, s, Work(w, Bad));
  }

  lemma ReachRequeue(s: World, w: WorkerId) returns (t: World)
    requires Reached(s) && w in s.workers && s.workers[w].pc == WriteRequeued
    requires var h := s.workers[w];
             h.job in s.db.jobs && s.db.jobs[h.job].row.state == Running && s.db.jobs[h.job].row.fence == h.token
    ensures var h := s.workers[w];
            && Reached(t) && t.stream == s.stream && t.workers == s.workers[w := h.(pc := DropClaimRetry)]
            && h.job in t.db.jobs && t.db.jobs[h.job].row.state == Queued && t.db.jobs[h.job].row.fence == h.token
            && t.db.outbox == s.db.outbox && t.kv == s.kv && t.now == s.now && t.issued == s.issued
            && t.listeners == s.listeners
  {
    ReachableNext(Defaults, s, Work(w, Bad));
    RequeuesJob(s, w);
    t := Next(Defaults, s, Work(w, Bad));
  }

  lemma FailsExecution(s: World, w: WorkerId)
    requires w in s.workers && s.workers[w].pc == Execute && s.workers[w].delivery.attempt < 5
    ensures var t := Next(Defaults, s, Work(w, Bad));
            && t.db == s.db && t.stream == s.stream && t.kv == s.kv && t.now == s.now && t.issued == s.issued
            && t.listeners == s.listeners
            && t.workers == s.workers[w := s.workers[w].(pc := WriteRequeued, result := 0)]
  {}

  lemma RequeuesJob(s: World, w: WorkerId)
    requires w in s.workers && s.workers[w].pc == WriteRequeued
    requires JudgeIn(s.db, s.workers[w].job, WorkerWrite(s.workers[w], Requeued)) == Accepted
    ensures var t := Next(Defaults, s, Work(w, Bad)); var h := s.workers[w];
            && t.db == Recorded(s.db, h.job, WorkerWrite(h, Requeued)) && t.stream == s.stream
            && t.kv == s.kv && t.now == s.now && t.issued == s.issued && t.listeners == s.listeners
            && t.workers == s.workers[w := h.(pc := DropClaimRetry)]
  {
    var h := s.workers[w];
    var write := WorkerWrite(h, Requeued);
    assert ActionAt(Defaults, w, h, Bad) == Commit(write);
    assert Ask(s, h, Commit(write), Bad) == Ruled(Accepted);
    assert Onward(Defaults, h, Ruled(Accepted)) == Some(DropClaimRetry);
    assert Learn(s, h, Commit(write), Bad) == h;
    assert Effect(s, h, Commit(write)) == s.(db := Recorded(s.db, h.job, write));
  }

  lemma FinishesExecution(s: World, w: WorkerId)
    requires w in s.workers && s.workers[w].pc == Execute
    ensures var t := Next(Defaults, s, Work(w, Good));
            && t.db == s.db && t.stream == s.stream && t.listeners == s.listeners
            && t.workers == s.workers[w := s.workers[w].(pc := WriteCompleted, result := 7)]
  {}

  /** Three moves of one worker, as a path. */
  lemma ReachThree(s: World, w: WorkerId) returns (ws: seq<World>, steps: seq<Step>)
    requires Reached(s)
    ensures ThreeMoves(Defaults, ws, steps, w) && ws[0] == s && Reached(ws[3])
  {
    var a := Work(w, Good);
    var s1 := Next(Defaults, s, a);
    var s2 := Next(Defaults, s1, a);
    ReachableNext(Defaults, s, a);
    ReachableNext(Defaults, s1, a);
    ReachableNext(Defaults, s2, a);
    ws, steps := [s, s1, s2, Next(Defaults, s2, a)], [a, a, a];
    assert Linked(Defaults, ws, steps, 0) && Linked(Defaults, ws, steps, 1) && Linked(Defaults, ws, steps, 2);
  }

  lemma NoOtherLetter(s: World, r: nat)
    requires |s.stream| == 1
    ensures !AliveBut(s, r, 0)
  {}

  /**
   With the default settings, a worker that pauses through its claim and its delivery, while a
   second one takes over and requeues, loses the job: QUEUED, with no carrier, and stuck. That the
   relay died before marking the row, so that it will publish the row again, does not help.
   */
  lemma PausedWorkerLosesJob(marked: bool)
    ensures exists s :: Reachable(Defaults, s) && InState(s, "j", Queued) && !HasCarrier(s, "j") && Stuck(s, "j")
                        && s.db.outbox == [OutboxRow("j", Body, marked)]
  {
    var s0 := BRequeues(marked);
    ReachableNext(Defaults, s0, Work("a", Good));
    FinishesExecution(s0, "a");
    var s1 := Next(Defaults, s0, Work("a", Good));
    APausedMisjudges(s1, marked);
  }

  lemma APausedMisjudges(s: World, marked: bool)
    requires Reached(s) && s.listeners == map[]
    requires s.workers == map["a" := Handler("j", Delivery(0, 1), WriteCompleted, 1, 20.0, 7),
                              "b" := Handler("j", Delivery(0, 2), DropClaimRetry, 2, 50.0, 0)]
    requires JobIs(s, Queued, 2) && LetterIs(s, 2, InFlight(60.0)) && s.db.outbox == [OutboxRow("j", Body, marked)]
    ensures exists t :: Reachable(Defaults, t) && InState(t, "j", Queued) && !HasCarrier(t, "j") && Stuck(t, "j")
                        && t.db.outbox == [OutboxRow("j", Body, marked)]
  {
    assert LatestRow(s.db.outbox, "j") == 0;
    assert Misjudges(s, "a");
    var ws, steps := ReachThree(s, "a");
    MisjudgedRuns(Defaults, ws, steps, "a");
    MisjudgementTakesCarrier(Defaults, ws, steps, "a");
    NoOtherLetter(s, 0);
    assert ws[3].stream[0].fate == Termed;
    OneLetterStuck(ws[3]);
  }

  /** With the only message of the only row dead, no listener, and workers on their way out, the job is stuck. */
  lemma OneLetterStuck(s: World)
    requires |s.db.outbox| == 1 && |s.stream| == 1 && s.stream[0].row == 0 && !Alive(s, 0) && s.listeners == map[]
    requires "j" in s.db.jobs && Active(s.db.jobs["j"].row.state)
    requires forall w :: w in s.workers ==> s.workers[w].pc == ReleaseLease || s.workers[w].pc == DropClaimRetry
    ensures Stuck(s, "j")
  {
    assert Known(s.stream, 0);
  }

  // ----- a poisoned job -----

  lemma ReachStep(s: World, step: Step) returns (t: World)
    requires Reached(s)
    ensures Reached(t) && t == Next(Defaults, s, step)
  {
    ReachableNext(Defaults, s, step);
    t := Next(Defaults, s, step);
  }

  ghost function PoisonWorld(now: real, deliveries: nat, fate: Fate, advisory: Advisory): World {
    Genesis.(now := now, db := Tables(Venom, true), stream := [Message("j", 0, Venom, deliveries, fate, advisory)])
  }

  lemma PoisonDelivered(now: real, n: nat) returns (t: World)
    requires Reached(PoisonWorld(now, n, Ready(now), NotRaised)) && n < 5
    ensures Reached(t)
    ensures t == PoisonWorld(now, n + 1, InFlight(now + 30.0), NotRaised).(
                   workers := map["a" := Handler("j", Delivery(0, n + 1), NakPoison, 0, 0.0, 0)])
  {
    var s := PoisonWorld(now, n, Ready(now), NotRaised);
    t := ReachStep(s, Deliver("a", 0));
    DeliverUnfolds(Defaults, s, "a", 0);
    assert t.stream == [s.stream[0].(deliveries := n + 1, fate := InFlight(now + 30.0))];
  }

  lemma PoisonNaked(now: real, n: nat, s: World) returns (t: World)
    requires Reached(s) && s == PoisonWorld(now, n, InFlight(now + 30.0), NotRaised).(
                                  workers := map["a" := Handler("j", Delivery(0, n), NakPoison, 0, 0.0, 0)])
    ensures Reached(t) && t == PoisonWorld(now, n, Ready(now + 0.5), NotRaised)
  {
    t := ReachStep(s, Work("a", Good));
    var h := s.workers["a"];
    assert ActionAt(Defaults, "a", h, Good) == Action.Nak(0.5);
    assert Onward(Defaults, h, Yes) == None;
    assert t.workers == map[];
    assert t.stream == [Message("j", 0, Venom, n, Ready(now + 0.5), NotRaised)];
  }

  /** After n deliveries that each killed their handling. */
  lemma {:induction false} Poisoned(n: nat) returns (now: real)
    requires n <= 5
    ensures Reached(PoisonWorld(now, n, Ready(now), NotRaised))
  {
    if n == 0 {
      var s := Publishes(Venom, true);
      now := 0.0;
    } else {
      var before := Poisoned(n - 1);
      var s1 := PoisonDelivered(before, n - 1);
      var s2 := PoisonNaked(before, n, s1);
      var s3 := ReachTick(s2, 0.5);
      now := before + 0.5;
      assert s3 == PoisonWorld(now, n, Ready(now), NotRaised);
    }
  }

  /** Deliveries exhausted, advisory raised, nobody at work. */
  lemma Exhausted() returns (now: real)
    ensures Reached(PoisonWorld(now, 5, Ready(now), Raised))
  {
    now := Poisoned(5);
    var s := PoisonWorld(now, 5, Ready(now), NotRaised);
    var t := ReachStep(s, Advise(0));
    assert t.stream == [Message("j", 0, Venom, 5, Ready(now), Raised)];
  }

  lemma ExhaustedIsRipe(now: real)
    ensures Ripe(SceneOf(PoisonWorld(now, 5, Ready(now), Raised)), 0)
  {}

  /** A quarantine error that the listener catches loses the poisoned job: QUEUED, with no carrier, and stuck. */
  lemma SwallowedErrorLosesJob()
    ensures exists s :: Reachable(Defaults, s) && InState(s, "j", Queued) && !HasCarrier(s, "j") && Stuck(s, "j")
  {
    var now := Exhausted();
    var s := ReachStep(PoisonWorld(now, 5, Ready(now), Raised), Fetch("l", 0));
    assert s == Listen(PoisonWorld(now, 5, Ready(now), Raised), "l", 0, Load);
    FetchedAndSwallowed(s);
  }

  lemma FetchedAndSwallowed(s: World)
    requires Reached(s) && s.listeners == map["l" := Quarantine(0, Load)] && s.workers == map[]
    requires InState(s, "j", Queued)
    requires |s.stream| == 1 && s.stream[0].job == "j" && s.stream[0].row == 0
    requires s.db.outbox == [OutboxRow("j", Venom, true)]
    ensures exists t :: Reachable(Defaults, t) && InState(t, "j", Queued) && !HasCarrier(t, "j") && Stuck(t, "j")
  {
    var s1 := ReachStep(s, Swallow("l"));
    var s2 := ReachStep(s1, Listening("l", true));
    var ws, steps := [s, s1, s2], [Swallow("l"), Listening("l", true)];
    assert Linked(Defaults, ws, steps, 0) && Linked(Defaults, ws, steps, 1);
    assert SwallowsError(Defaults, ws, steps, "l");
    assert LatestRow(s.db.outbox, "j") == 0;
    SwallowedRuns(Defaults, ws, steps, "l");
    SwallowedErrorTakesCarrier(Defaults, ws, steps, "l");
    NoOtherLetter(s, 0);
    assert s2.listeners == map[];
    OneLetterStuck(s2);
  }

  lemma {:induction false} ListenedReachable(s: World, l: string, k: nat)
    requires Reached(s)
    ensures Reached(Listened(Defaults, s, l, k))
  {
    if k > 0 {
      ListenedReachable(s, l, k - 1);
      ReachableNext(Defaults, Listened(Defaults, s, l, k - 1), Listening(l, true));
    }
  }

  lemma AttemptReachable(s: World, l: string, msg: nat, k: nat)
    requires Reached(s)
    ensures Reached(Attempt(Defaults, s, l, msg, k))
  {
    ReachableNext(Defaults, s, Fetch(l, msg));
    ListenedReachable(Next(Defaults, s, Fetch(l, msg)), l, k);
    ReachableNext(Defaults, Listened(Defaults, Next(Defaults, s, Fetch(l, msg)), l, k), ListenerDie(l));
  }

  /**
   A listener dies between audit and delete, an operator replays the job, and the listener's re-run
   dead-letters it again.
   */
  lemma ReplayIsUndone()
    ensures exists s, deliveries: nat ::
              Reachable(Defaults, s) &&
              LogAfter(s, "j") == FirstEvents + [JobEvent(DeadLettered, deliveries, None), EventOf(ReplayWrite),
                                                 JobEvent(DeadLettered, deliveries, None)]
  {
    var now := Exhausted();
    var s := PoisonWorld(now, 5, Ready(now), Raised);
    var kills := [Kill("l", 3)];
    ExhaustedIsRipe(now);
    ReplayBetween(Defaults, s, 0, kills, [], "l");
    assert kills[0].after == 3;
    assert KilledInBetween(kills);
    var t := ReplayedBetween(Defaults, s, 0, kills, [], "l");
    UndoneReachable(s);
    assert DeadLetterOf(s.stream[0]) == JobEvent(DeadLettered, 5, None);
    assert LogAfter(t, "j")
        == FirstEvents + [JobEvent(DeadLettered, 5, None), EventOf(ReplayWrite), JobEvent(DeadLettered, 5, None)];
  }

  lemma OneRerun(cfg: Settings, s: World, msg: nat, kill: Kill)
    ensures Reruns(cfg, s, msg, [kill]) == Attempt(cfg, s, kill.listener, msg, kill.after)
  {
    assert [kill][..|[kill]| - 1] == [];
    assert Reruns(cfg, s, msg, []) == s;
  }

  lemma UndoneReachable(s: World)
    requires Reached(s) && 0 < |s.stream|
    ensures Reached(ReplayedBetween(Defaults, s, 0, [Kill("l", 3)], [], "l"))
  {
    var kills := [Kill("l", 3)];
    AttemptReachable(s, "l", 0, 3);
    OneRerun(Defaults, s, 0, kills[0]);
    var t := Attempt(Defaults, s, "l", 0, 3);
    ReachableNext(Defaults, t, ReplayJob(s.stream[0].job));
    AttemptReachable(Next(Defaults, t, ReplayJob(s.stream[0].job)), "l", 0, Complete);
  }

  // ----- a death after the nak -----

  lemma ReachDrop(s: World, w: WorkerId) returns (t: World)
    requires Reached(s) && w in s.workers && s.workers[w].pc == DropClaimRetry
    ensures var h := s.workers[w];
            Reached(t) && t == s.(kv := KV.Drop(s.kv, ClaimKey(h.job), Owner(w, h.delivery.attempt)),
                                  workers := s.workers[w := h.(pc := NakRetry)])
  {
    t := ReachStep(s, Work(w, Bad));
    var h := s.workers[w];
    assert ActionAt(Defaults, w, h, Bad) == Action.Drop(ClaimKey(h.job), Owner(w, h.delivery.attempt));
    assert Onward(Defaults, h, Yes) == Some(NakRetry);
  }

  lemma ReachNak(s: World, w: WorkerId) returns (t: World)
    requires Reached(s) && w in s.workers && s.workers[w].pc == NakRetry && s.workers[w].delivery == Delivery(0, 1)
    requires |s.stream| == 1 && Stored(s.stream[0].fate)
    ensures Reached(t) && t == s.(stream := [s.stream[0].(fate := Ready(s.now + 2.0))],
                                  workers := s.workers[w := s.workers[w].(pc := ReleaseLease)])
  {
    t := ReachStep(s, Work(w, Bad));
    var h := s.workers[w];
    assert Pow2(1) == 2;
    assert ActionAt(Defaults, w, h, Bad) == Action.Nak(2.0);
    assert Onward(Defaults, h, Yes) == Some(ReleaseLease);
    assert t.stream == [s.stream[0].(fate := Ready(s.now + 2.0))];
  }

  lemma ReachDeath(s: World, w: WorkerId) returns (t: World)
    requires Reached(s)
    ensures Reached(t) && t == s.(workers := s.workers - {w})
  {
    t := ReachStep(s, Die(w));
  }

  /** Worker a fails the job, requeues it, naks, and dies before it has released its lease. */
  lemma ANaksAndDies() returns (s: World)
    ensures Reached(s) && s.now == 0.0 && s.workers == map[] && JobIs(s, Queued, 1) && |Issued(s, "j")| == 1
    ensures s.kv == map[LeaseKey("j") := KV.Entry(Owner("a", 1), 20.0)]
    ensures s.stream == [Message("j", 0, Body, 1, Ready(2.0), NotRaised)]
  {
    var s0 := Publishes(Body, true);
    var s1 := ReachDelivery(s0, "a", 0);
    var s2 := ReachStart(s1, "a");
    var s3 := AFails(s2);
    var s4 := ReachDrop(s3, "a");
    assert s4.kv == map[LeaseKey("j") := KV.Entry(Owner("a", 1), 20.0)];
    var s5 := ReachNak(s4, "a");
    s := ReachDeath(s5, "a");
    assert s.workers == map[];
  }

  lemma AFails(s: World) returns (t: World)
    requires Reached(s) && s.workers == map["a" := Handler("j", Delivery(0, 1), Execute, 1, 20.0, 0)]
    requires JobIs(s, Running, 1)
    ensures Reached(t) && t.kv == s.kv && t.now == s.now && t.stream == s.stream && Issued(t, "j") == Issued(s, "j")
    ensures t.workers == map["a" := Handler("j", Delivery(0, 1), DropClaimRetry, 1, 20.0, 0)] && JobIs(t, Queued, 1)
  {
    var s1 := ReachFailure(s, "a");
    t := ReachRequeue(s1, "a");
  }

  /**
   Recovery on the first redelivery needs the worker to have died without answering: the lease of one
   that dies between its nak and its release turns the redelivery away, though nobody is on the job.
   */
  lemma DeathAfterNakTurnsAway()
    ensures exists s :: Reachable(Defaults, s) && InState(s, "j", Queued)
                        && s.workers.Keys == {"b"} && s.workers["b"].job == "j" && s.workers["b"].pc == DropClaimBusy
  {
    var s0 := ANaksAndDies();
    var s1 := ReachTick(s0, 2.0);
    assert LeaseKey("j") in s1.kv && s1.kv.Keys == {LeaseKey("j")};
    var s2 := ReachDelivery(s1, "b", 1);
    var s3 := ReachToken(s2, "b");
    var s4 := ReachStep(s3, Work("b", Good));
    BTurnedAway(s3, s4);
  }

  lemma BTurnedAway(s: World, t: World)
    requires s.workers.Keys == {"b"} && s.workers["b"].pc == TakeLease && s.workers["b"].job == "j"
    requires InState(s, "j", Queued)
    requires t == Next(Defaults, s, Work("b", Good)) && LeaseKey("j") in s.kv
    ensures InState(t, "j", Queued) && t.workers.Keys == {"b"} && t.workers["b"].job == "j"
    ensures t.workers["b"].pc == DropClaimBusy
  {
    var h := s.workers["b"];
    var a := Action.Take(LeaseKey("j"), Owner("b", h.token), 20.0);
    assert ActionAt(Defaults, "b", h, Good) == a;
    assert Onward(Defaults, h, No) == Some(DropClaimBusy);
    assert t.workers == s.workers["b" := h.(pc := DropClaimBusy)];
  }
}
