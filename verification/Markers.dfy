/**
 What a handler stores in the key-value store, and what it gives back. Every live lease, claim and done
 marker of every run is traced to the step that stored it, with its owner and its expiry; a handler that
 answers its message has given its claim back; and a completed job is remembered for the marker's TTL.
 */
module Markers {
  import opened Core
  import opened Domain
  import opened Keys
  import opened Records
  import opened System
  import opened Safety
  import opened Frames
  import opened WorkerSteps
  import opened OtherSteps
  import opened NoLoss
  import opened Promptness

  // ----- every entry has its cause -----

  /** The step stores exactly this entry: who, what and until when, by the point at which the handler stands. */
  ghost predicate Stores(cfg: Settings, s: World, step: Step, key: Key, entry: KV.Entry<Owner>) {
    && step.Work? && step.worker in s.workers && key !in s.kv && key.job == s.workers[step.worker].job
    && var w, h := step.worker, s.workers[step.worker];
       match key
       case ClaimKey(_) => h.pc == TakeClaim && entry == KV.Entry(Owner(w, h.delivery.attempt), s.now + cfg.leaseTtl)
       case LeaseKey(_) => h.pc == TakeLease && entry == KV.Entry(Owner(w, h.token), s.now + cfg.leaseTtl)
       case DoneKey(_) => h.pc == MarkDone && entry == KV.Entry(Owner(w, h.delivery.attempt), s.now + cfg.doneTtl)
       case TokenKey(_) => false
  }

  lemma TakeIs(cfg: Settings, s: World, w: WorkerId, env: Env, key: Key)
    requires w in s.workers && key !in s.kv
    ensures var a := ActionAt(cfg, w, s.workers[w], env);
            a.Take? && a.key == key ==> Stores(cfg, s, Work(w, env), key, KV.Entry(a.owner, s.now + a.ttl))
  {}

  lemma EffectStores(s: World, h: Handler, a: Action, key: Key)
    ensures var t := Effect(s, h, a);
            && (key in t.kv && key in s.kv ==> t.kv[key] == s.kv[key])
            && (key in t.kv && key !in s.kv ==>
                  a.Take? && a.key == key && t.kv[key] == KV.Entry(a.owner, s.now + a.ttl))
  {}

  /** A step that makes a key live stores its entry; no step changes the entry of a live key. */
  lemma EntryMove(cfg: Settings, s: World, step: Step, key: Key)
    requires key in Next(cfg, s, step).kv
    ensures var t := Next(cfg, s, step);
            if key in s.kv then t.kv[key] == s.kv[key] else Stores(cfg, s, step, key, t.kv[key])
  {
    if step.Work? {
      WorkUnfolds(cfg, s, step.worker, step.env);
      if step.worker in s.workers {
        var h := s.workers[step.worker];
        EffectStores(s, h, ActionAt(cfg, step.worker, h, step.env), key);
        if key !in s.kv { TakeIs(cfg, s, step.worker, step.env, key); }
      }
    } else {
      KeysFrame(cfg, s, step);
    }
  }

  /** Step k stored the entry that the key has at moment n, and the key has had it ever since. */
  ghost predicate StoredAt(cfg: Settings, ws: seq<World>, steps: seq<Step>, k: nat, n: nat, key: Key) {
    && |ws| == |steps| + 1 && k < n < |ws| && key in ws[n].kv
    && Stores(cfg, ws[k], steps[k], key, ws[n].kv[key])
    && forall m :: k < m <= n ==> key in ws[m].kv && ws[m].kv[key] == ws[n].kv[key]
  }

  /**
   In every run a live claim, lease or done marker was stored by a handler of its job at the point for
   it, under that handler's delivery or token, and expires its own TTL after that moment.
   */
  lemma {:induction false} EveryEntryHasItsCause(cfg: Settings, ws: seq<World>, steps: seq<Step>, n: nat, key: Key)
    requires IsRun(cfg, ws, steps) && n < |ws| && key in ws[n].kv
    ensures exists k: nat :: StoredAt(cfg, ws, steps, k, n, key)
  {
    assert Linked(cfg, ws, steps, n - 1);
    EntryMove(cfg, ws[n - 1], steps[n - 1], key);
    if key in ws[n - 1].kv {
      EveryEntryHasItsCause(cfg, ws, steps, n - 1, key);
      var k: nat :| StoredAt(cfg, ws, steps, k, n - 1, key);
      assert StoredAt(cfg, ws, steps, k, n, key);
    } else {
      assert StoredAt(cfg, ws, steps, n - 1, n, key);
    }
  }

  // ----- claims and leases are given back -----

  /** The points at which a handler that took a claim answers its message. */
  ghost predicate AnswersClaimed(h: Handler) {
    || h.pc == AckDone || h.pc == NakRetry || h.pc == TermFailed || h.pc == TermObsolete
    || (h.pc == NakBusy && h.token > 0)
  }

  ghost predicate NotHolding(s: World, w: WorkerId)
    requires w in s.workers
  {
    var h := s.workers[w];
    AnswersClaimed(h) ==> ClaimKey(h.job) !in s.kv || s.kv[ClaimKey(h.job)].value != Owner(w, h.delivery.attempt)
  }

  ghost predicate ClaimsReturned(s: World) {
    forall w :: w in s.workers ==> NotHolding(s, w)
  }

  /** The way to such an answer leads through giving the claim back. */
  lemma AnswerComesFrom(cfg: Settings, s: World, w: WorkerId, env: Env)
    requires w in s.workers && TokenOk(s.workers[w], Issued(s, s.workers[w].job))
    ensures var h := s.workers[w]; var a := ActionAt(cfg, w, h, env);
            var next := Onward(cfg, h, Ask(s, h, a, env));
            next.Some? && AnswersClaimed(Learn(s, h, a, env).(pc := next.value)) ==>
              a == Action.Drop(ClaimKey(h.job), Owner(w, h.delivery.attempt))
  {}

  lemma ActorReturns(cfg: Settings, s: World, w: WorkerId, env: Env)
    requires w in s.workers && TokenOk(s.workers[w], Issued(s, s.workers[w].job))
    requires w in WorkerStep(cfg, s, w, env).workers
    ensures NotHolding(WorkerStep(cfg, s, w, env), w)
  {
    AnswerComesFrom(cfg, s, w, env);
    var h := s.workers[w];
    LearnKeeps(s, h, ActionAt(cfg, w, h, env), env);
  }

  /** Nobody stores a claim in another worker's name. */
  lemma OthersReturn(cfg: Settings, s: World, step: Step, w: WorkerId)
    requires w in s.workers && w in Next(cfg, s, step).workers && Next(cfg, s, step).workers[w] == s.workers[w]
    requires NotHolding(s, w) && !(step.Work? && step.worker == w)
    ensures NotHolding(Next(cfg, s, step), w)
  {
    var key := ClaimKey(s.workers[w].job);
    if key in Next(cfg, s, step).kv { EntryMove(cfg, s, step, key); }
  }

  lemma ReturnedNext(cfg: Settings, s: World, step: Step, w: WorkerId)
    requires w in Next(cfg, s, step).workers && (w in s.workers ==> HandlerOk(cfg, s, w) && NotHolding(s, w))
    ensures NotHolding(Next(cfg, s, step), w)
  {
    if step.Work? {
      WorkUnfolds(cfg, s, step.worker, step.env);
      if step.worker in s.workers {
        if step.worker == w {
          ActorReturns(cfg, s, w, step.env);
        } else {
          WorkerMovesItself(cfg, s, step.worker, step.env, w);
          OthersReturn(cfg, s, step, w);
        }
      }
    } else {
      WorkersFrame(cfg, s, step, w);
      if w in s.workers && Next(cfg, s, step).workers[w] == s.workers[w] { OthersReturn(cfg, s, step, w); }
    }
  }

  lemma ReturnedLink(cfg: Settings, ws: seq<World>, steps: seq<Step>, n: nat)
    requires IsRun(cfg, ws, steps) && n < |steps| && ClaimsReturned(ws[n])
    ensures ClaimsReturned(ws[n + 1])
  {
    GenesisIsSafe(cfg);
    PathKeeps(cfg, ws, steps, n);
    assert Linked(cfg, ws, steps, n);
    var t := ws[n + 1];
    forall w | w in t.workers ensures NotHolding(t, w) {
      ReturnedNext(cfg, ws[n], steps[n], w);
    }
  }

  lemma {:induction false} RunReturns(cfg: Settings, ws: seq<World>, steps: seq<Step>, n: nat)
    requires IsRun(cfg, ws, steps) && n < |ws|
    ensures ClaimsReturned(ws[n])
  {
    if n > 0 {
      RunReturns(cfg, ws, steps, n - 1);
      ReturnedLink(cfg, ws, steps, n - 1);
    }
  }

  /**
   In every reachable state a handler that is about to ack, to nak for a retry or for a held lease, or to
   terminate its message has given its claim back, so the redelivery does not find it.
   */
  lemma ClaimIsBackBeforeAnswer(cfg: Settings, s: World, w: WorkerId)
    requires Reachable(cfg, s) && w in s.workers && AnswersClaimed(s.workers[w])
    ensures var h := s.workers[w];
            ClaimKey(h.job) !in s.kv || s.kv[ClaimKey(h.job)].value != Owner(w, h.delivery.attempt)
  {
    var ws, steps :| IsRun(cfg, ws, steps) && Last(ws) == s;
    RunReturns(cfg, ws, steps, |ws| - 1);
    assert NotHolding(s, w);
  }

  /** A handler inside the try block leaves by giving its lease back, or dies. */
  lemma LeaseIsBackAtExit(cfg: Settings, s: World, step: Step, w: WorkerId)
    requires w in s.workers && InsideTry(s.workers[w].pc) && w !in Next(cfg, s, step).workers
    ensures var h, t := s.workers[w], Next(cfg, s, step);
            || step == Die(w)
            || (&& step.Work? && step.worker == w && h.pc == ReleaseLease
                && (LeaseKey(h.job) !in t.kv || t.kv[LeaseKey(h.job)].value != Owner(w, h.token)))
  {
    if step.Work? {
      WorkUnfolds(cfg, s, step.worker, step.env);
      if step.worker in s.workers {
        if step.worker == w {
          ExitIs(cfg, s, w, step.env);
        } else {
          WorkerMovesItself(cfg, s, step.worker, step.env, w);
        }
      }
    } else {
      WorkersFrame(cfg, s, step, w);
    }
  }

  lemma ExitIs(cfg: Settings, s: World, w: WorkerId, env: Env)
    requires w in s.workers && InsideTry(s.workers[w].pc) && w !in WorkerStep(cfg, s, w, env).workers
    ensures var h, t := s.workers[w], WorkerStep(cfg, s, w, env);
            && h.pc == ReleaseLease
            && (LeaseKey(h.job) !in t.kv || t.kv[LeaseKey(h.job)].value != Owner(w, h.token))
  {
    var h := s.workers[w];
    LeavesBy(cfg, h, Ask(s, h, ActionAt(cfg, w, h, env), env));
    assert ActionAt(cfg, w, h, env) == Action.Drop(LeaseKey(h.job), Owner(w, h.token));
  }

  lemma LeavesBy(cfg: Settings, h: Handler, reply: Reply)
    requires InsideTry(h.pc)
    ensures Onward(cfg, h, reply) == None ==> h.pc == ReleaseLease
  {}

  // ----- the done marker -----

  /** A handler about to store the done marker wrote the COMPLETED that ends the log. */
  ghost predicate Completer(s: World, w: WorkerId)
    requires w in s.workers
  {
    var h := s.workers[w];
    h.pc == MarkDone ==>
      && h.job in s.db.jobs && s.db.jobs[h.job].log != []
      && var e := s.db.jobs[h.job].log[|s.db.jobs[h.job].log| - 1]; e.event == Completed && e.token == Some(h.token)
  }

  /** A handler about to store the done marker finds none. */
  ghost predicate Unmarked(s: World, w: WorkerId)
    requires w in s.workers
  {
    s.workers[w].pc == MarkDone ==> DoneKey(s.workers[w].job) !in s.kv
  }

  ghost predicate MarkersOk(s: World) {
    forall w :: w in s.workers ==> Completer(s, w) && Unmarked(s, w)
  }

  lemma MarkComesFrom(cfg: Settings, s: World, w: WorkerId, env: Env)
    requires w in s.workers
    ensures var t := WorkerStep(cfg, s, w, env);
            w in t.workers && t.workers[w].pc == MarkDone ==>
              var h := s.workers[w];
              && h.pc == WriteCompleted && t.workers[w] == h.(pc := MarkDone)
              && JudgeIn(s.db, h.job, WorkerWrite(h, Completed)) == Accepted
              && t.db == Recorded(s.db, h.job, WorkerWrite(h, Completed)) && t.kv == s.kv
  {
    MarkedOnward(cfg, s.workers[w], Ask(s, s.workers[w], ActionAt(cfg, w, s.workers[w], env), env));
  }

  lemma MarkedOnward(cfg: Settings, h: Handler, reply: Reply)
    ensures Onward(cfg, h, reply) == Some(MarkDone) ==> h.pc == WriteCompleted && reply == Ruled(Accepted)
  {}

  /** The completing handler itself: its COMPLETED is accepted, so there was no marker before. */
  lemma ActorMarks(cfg: Settings, s: World, w: WorkerId, env: Env)
    requires w in s.workers && (forall k :: k in s.kv ==> EntryAlive(s, k))
    requires w in WorkerStep(cfg, s, w, env).workers
    ensures Completer(WorkerStep(cfg, s, w, env), w) && Unmarked(WorkerStep(cfg, s, w, env), w)
  {
    MarkComesFrom(cfg, s, w, env);
    var h := s.workers[w];
    if DoneKey(h.job) in s.kv { assert EntryAlive(s, DoneKey(h.job)); }
  }

  /** A succeeded job's record is at its end. */
  lemma SucceededRecord(cfg: Settings, s: World, step: Step, j: JobId)
    requires InState(s, j, Succeeded)
    ensures j in Next(cfg, s, step).db.jobs && Next(cfg, s, step).db.jobs[j] == s.db.jobs[j]
  {
    match step
    case SubmitJob(_, _, _) =>
    case ReplayJob(_) =>
    case Work(v, env) =>
      WorkUnfolds(cfg, s, v, env);
      if v in s.workers { EffectLeavesSucceeded(s, s.workers[v], ActionAt(cfg, v, s.workers[v], env), j); }
    case Listening(l, inWindow) =>
      ListenUnfolds(cfg, s, l, inWindow);
      if l in s.listeners { ListenerWrites(s, l, inWindow); }
    case _ => TablesFrame(cfg, s, step);
  }

  lemma EffectLeavesSucceeded(s: World, h: Handler, a: Action, j: JobId)
    requires InState(s, j, Succeeded)
    ensures j in Effect(s, h, a).db.jobs && Effect(s, h, a).db.jobs[j] == s.db.jobs[j]
  {}

  /** Two handlers that could mark the same job are one. */
  lemma OneMarker(s: World, v: WorkerId, w: WorkerId)
    requires v in s.workers && w in s.workers && s.workers[v].delivery != s.workers[w].delivery
    requires TokenOk(s.workers[v], Issued(s, s.workers[v].job)) && TokenOk(s.workers[w], Issued(s, s.workers[w].job))
    requires Completer(s, v) && Completer(s, w) && s.workers[v].pc == MarkDone && s.workers[w].pc == MarkDone
    ensures s.workers[v].job != s.workers[w].job
  {}

  lemma OtherMarks(cfg: Settings, s: World, step: Step, w: WorkerId)
    requires w in s.workers && Completer(s, w) && Unmarked(s, w) && s.workers[w].pc == MarkDone
    requires HandlersOk(cfg, s) && Apart(s) && (forall v :: v in s.workers ==> Completer(s, v))
    requires w in Next(cfg, s, step).workers && Next(cfg, s, step).workers[w] == s.workers[w]
    requires !(step.Work? && step.worker == w)
    ensures Completer(Next(cfg, s, step), w) && Unmarked(Next(cfg, s, step), w)
  {
    var j := s.workers[w].job;
    assert HandlerOk(cfg, s, w);
    SucceededRecord(cfg, s, step, j);
    if DoneKey(j) in Next(cfg, s, step).kv {
      EntryMove(cfg, s, step, DoneKey(j));
      assert HandlerOk(cfg, s, step.worker);
      OneMarker(s, step.worker, w);
    }
  }

  lemma MarkersNext(cfg: Settings, s: World, step: Step, w: WorkerId)
    requires MarkersOk(s) && HandlersOk(cfg, s) && Apart(s) && (forall k :: k in s.kv ==> EntryAlive(s, k))
    requires w in Next(cfg, s, step).workers
    ensures Completer(Next(cfg, s, step), w) && Unmarked(Next(cfg, s, step), w)
  {
    if step.Work? && step.worker in s.workers && step.worker == w {
      WorkUnfolds(cfg, s, w, step.env);
      ActorMarks(cfg, s, w, step.env);
    } else {
      BystanderAtMark(cfg, s, step, w);
      if Next(cfg, s, step).workers[w].pc == MarkDone { OtherMarks(cfg, s, step, w); }
    }
  }

  lemma BystanderAtMark(cfg: Settings, s: World, step: Step, w: WorkerId)
    requires w in Next(cfg, s, step).workers && !(step.Work? && step.worker in s.workers && step.worker == w)
    ensures Next(cfg, s, step).workers[w].pc == MarkDone ==>
              w in s.workers && Next(cfg, s, step).workers[w] == s.workers[w] && !(step.Work? && step.worker == w)
  {
    if step.Work? {
      WorkUnfolds(cfg, s, step.worker, step.env);
      if step.worker in s.workers { WorkerMovesItself(cfg, s, step.worker, step.env, w); }
    } else {
      WorkersFrame(cfg, s, step, w);
    }
  }

  lemma MarkersLink(cfg: Settings, ws: seq<World>, steps: seq<Step>, n: nat)
    requires IsRun(cfg, ws, steps) && n < |steps| && MarkersOk(ws[n])
    ensures MarkersOk(ws[n + 1])
  {
    GenesisIsSafe(cfg);
    PathKeeps(cfg, ws, steps, n);
    assert Linked(cfg, ws, steps, n);
    var t := ws[n + 1];
    forall w | w in t.workers ensures Completer(t, w) && Unmarked(t, w) {
      MarkersNext(cfg, ws[n], steps[n], w);
    }
  }

  lemma {:induction false} RunMarkersOk(cfg: Settings, ws: seq<World>, steps: seq<Step>, n: nat)
    requires IsRun(cfg, ws, steps) && n < |ws|
    ensures MarkersOk(ws[n])
  {
    if n > 0 {
      RunMarkersOk(cfg, ws, steps, n - 1);
      MarkersLink(cfg, ws, steps, n - 1);
    }
  }

  /** Step k is the one at which w stored the done marker for its delivery d of job j. */
  ghost predicate MarkedAt(ws: seq<World>, steps: seq<Step>, k: nat, w: WorkerId, j: JobId, d: Delivery) {
    && k < |steps| && k < |ws| && steps[k].Work? && steps[k].worker == w && w in ws[k].workers
    && ws[k].workers[w].pc == MarkDone && ws[k].workers[w].job == j && ws[k].workers[w].delivery == d
  }

  /** The marker stands, from the step that stored it, for its whole TTL. */
  ghost predicate Remembered(s: World, j: JobId, owner: Owner, until: real) {
    s.now < until ==> DoneKey(j) in s.kv && s.kv[DoneKey(j)] == KV.Entry(owner, until)
  }

  lemma MarkIsStored(cfg: Settings, s: World, w: WorkerId, env: Env)
    requires w in s.workers && s.workers[w].pc == MarkDone && DoneKey(s.workers[w].job) !in s.kv
    ensures var h := s.workers[w];
            Remembered(Next(cfg, s, Work(w, env)), h.job, Owner(w, h.delivery.attempt), s.now + cfg.doneTtl)
  {
    var h := s.workers[w];
    WorkUnfolds(cfg, s, w, env);
    WorkTakesNoTime(cfg, s, w, env);
    assert ActionAt(cfg, w, h, env) == Action.Take(DoneKey(h.job), Owner(w, h.delivery.attempt), cfg.doneTtl);
  }

  lemma MarkStays(cfg: Settings, s: World, step: Step, j: JobId, owner: Owner, until: real)
    requires Remembered(s, j, owner, until) && step != Lose(DoneKey(j))
    ensures Remembered(Next(cfg, s, step), j, owner, until)
  {
    NextGrows(cfg, s, step);
    if s.now < until {
      if step.Work? {
        WorkUnfolds(cfg, s, step.worker, step.env);
        if step.worker in s.workers { NobodyDropsMarkers(cfg, s, step.worker, step.env, j); }
      } else {
        KeysFrame(cfg, s, step);
      }
    }
  }

  lemma NobodyDropsMarkers(cfg: Settings, s: World, w: WorkerId, env: Env, j: JobId)
    requires w in s.workers && DoneKey(j) in s.kv
    ensures var t := WorkerStep(cfg, s, w, env); DoneKey(j) in t.kv && t.kv[DoneKey(j)] == s.kv[DoneKey(j)]
  {
    var h := s.workers[w];
    var a := ActionAt(cfg, w, h, env);
    assert !(a.Drop? && a.key == DoneKey(j));
    EntryStays(s, h, a, DoneKey(j));
  }

  lemma {:induction false} StaysRemembered(
      cfg: Settings, ws: seq<World>, steps: seq<Step>, a: nat, b: nat, j: JobId, owner: Owner, until: real)
    requires Path(cfg, ws, steps) && a <= b < |ws| && Remembered(ws[a], j, owner, until)
    requires forall k :: a <= k < b ==> steps[k] != Lose(DoneKey(j))
    ensures Remembered(ws[b], j, owner, until)
  {
    if a < b {
      StaysRemembered(cfg, ws, steps, a, b - 1, j, owner, until);
      assert Linked(cfg, ws, steps, b - 1);
      MarkStays(cfg, ws[b - 1], steps[b - 1], j, owner, until);
    }
  }

  /** A handler past the marker passed it at some step. */
  lemma {:induction false} AckedAfterMark(cfg: Settings, ws: seq<World>, steps: seq<Step>, n: nat, w: WorkerId)
      returns (k: nat)
    requires IsRun(cfg, ws, steps) && n < |ws| && w in ws[n].workers
    requires ws[n].workers[w].pc == DropClaimDone || ws[n].workers[w].pc == AckDone
    ensures k < n && MarkedAt(ws, steps, k, w, ws[n].workers[w].job, ws[n].workers[w].delivery)
  {
    var s, step := ws[n - 1], steps[n - 1];
    assert Linked(cfg, ws, steps, n - 1);
    PastMark(cfg, s, step, w);
    if s.workers[w].pc == MarkDone {
      k := n - 1;
    } else {
      k := AckedAfterMark(cfg, ws, steps, n - 1, w);
    }
  }

  lemma PastMark(cfg: Settings, s: World, step: Step, w: WorkerId)
    requires w in Next(cfg, s, step).workers
    requires var pc := Next(cfg, s, step).workers[w].pc; pc == DropClaimDone || pc == AckDone
    ensures w in s.workers
    ensures var g, h := Next(cfg, s, step).workers[w], s.workers[w];
            && g.job == h.job && g.delivery == h.delivery
            && (h.pc == DropClaimDone || h.pc == AckDone || (h.pc == MarkDone && step.Work? && step.worker == w))
  {
    if step.Work? {
      WorkUnfolds(cfg, s, step.worker, step.env);
      if step.worker in s.workers {
        if step.worker == w {
          WorkPastMark(cfg, s, w, step.env);
        } else {
          WorkerMovesItself(cfg, s, step.worker, step.env, w);
        }
      }
    } else {
      WorkersFrame(cfg, s, step, w);
    }
  }

  lemma WorkPastMark(cfg: Settings, s: World, w: WorkerId, env: Env)
    requires w in s.workers && w in WorkerStep(cfg, s, w, env).workers
    requires var pc := WorkerStep(cfg, s, w, env).workers[w].pc; pc == DropClaimDone || pc == AckDone
    ensures var g, h := WorkerStep(cfg, s, w, env).workers[w], s.workers[w];
            g.job == h.job && g.delivery == h.delivery && (h.pc == DropClaimDone || h.pc == MarkDone)
  {
    var h := s.workers[w];
    var a := ActionAt(cfg, w, h, env);
    LearnKeeps(s, h, a, env);
    PastMarkOnward(cfg, h, Ask(s, h, a, env));
  }

  lemma PastMarkOnward(cfg: Settings, h: Handler, reply: Reply)
    ensures Onward(cfg, h, reply) == Some(DropClaimDone) ==> h.pc == MarkDone
    ensures Onward(cfg, h, reply) == Some(AckDone) ==> h.pc == DropClaimDone
  {}

  /** A delivery that finds the marker goes on to ack its message as a duplicate. */
  lemma DuplicateGoesToAck(cfg: Settings, s: World, v: WorkerId, env: Env)
    requires v in s.workers && s.workers[v].pc == CheckDone && DoneKey(s.workers[v].job) in s.kv
    ensures var t := Next(cfg, s, Work(v, env));
            v in t.workers && t.workers[v] == s.workers[v].(pc := AckDuplicate) && t.db == s.db && t.kv == s.kv
  {
    WorkUnfolds(cfg, s, v, env);
    assert ActionAt(cfg, v, s.workers[v], env) == Look(DoneKey(s.workers[v].job));
    assert Onward(cfg, s.workers[v], Yes) == Some(AckDuplicate);
  }

  /**
   A completed job is remembered. In every run a handler about to ack its completed job stored the done
   marker at an earlier step k; and whatever happens, until exec_guard_ttl after that step, unless the
   store loses the marker, every delivery of the job that looks for it is acked as a duplicate.
   */
  lemma CompletedIsRemembered(
      cfg: Settings, ws: seq<World>, steps: seq<Step>, a: nat, n: nat, w: WorkerId, v: WorkerId, j: JobId)
    requires IsRun(cfg, ws, steps) && a <= n < |steps|
    requires w in ws[a].workers && ws[a].workers[w].job == j && ws[a].workers[w].pc == AckDone
    requires v in ws[n].workers && ws[n].workers[v].job == j && ws[n].workers[v].pc == CheckDone
    requires steps[n].Work? && steps[n].worker == v && forall k :: 0 <= k < n ==> steps[k] != Lose(DoneKey(j))
    ensures exists k: nat ::
              && k < a && MarkedAt(ws, steps, k, w, j, ws[a].workers[w].delivery)
              && (ws[n].now < ws[k].now + cfg.doneTtl ==>
                    v in ws[n + 1].workers && ws[n + 1].workers[v] == ws[n].workers[v].(pc := AckDuplicate))
  {
    var k := AckedAfterMark(cfg, ws, steps, a, w);
    RunMarkersOk(cfg, ws, steps, k);
    assert Unmarked(ws[k], w);
    RememberedSince(cfg, ws, steps, k, n, w, j);
    if ws[n].now < ws[k].now + cfg.doneTtl {
      assert Linked(cfg, ws, steps, n);
      DuplicateGoesToAck(cfg, ws[n], v, steps[n].env);
    }
  }

  lemma RememberedSince(cfg: Settings, ws: seq<World>, steps: seq<Step>, k: nat, n: nat, w: WorkerId, j: JobId)
    requires Path(cfg, ws, steps) && k < n < |ws| && w in ws[k].workers && ws[k].workers[w].pc == MarkDone
    requires ws[k].workers[w].job == j && DoneKey(j) !in ws[k].kv && steps[k].Work? && steps[k].worker == w
    requires forall m :: k <= m < n ==> steps[m] != Lose(DoneKey(j))
    ensures ws[n].now < ws[k].now + cfg.doneTtl ==> DoneKey(j) in ws[n].kv
  {
    assert Linked(cfg, ws, steps, k);
    MarkIsStored(cfg, ws[k], w, steps[k].env);
    var owner := Owner(w, ws[k].workers[w].delivery.attempt);
    StaysRemembered(cfg, ws, steps, k + 1, n, j, owner, ws[k].now + cfg.doneTtl);
  }
}
