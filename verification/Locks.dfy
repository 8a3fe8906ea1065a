/**
 Row locks of concurrent relays. FOR UPDATE SKIP LOCKED keeps their batches apart: in every run no row is
 in two batches, and a row in a batch is not published until its own relay marks it.
 */
module Locks {
  import opened Records
  import opened System
  import opened Safety
  import opened Frames
  import opened Relays

  /** The rows of the batch are unpublished, in order and without repetition. */
  ghost predicate BatchOk(outbox: seq<OutboxRow>, batch: seq<nat>) {
    && (forall a, b :: 0 <= a < b < |batch| ==> batch[a] < batch[b])
    && (forall k :: 0 <= k < |batch| ==> batch[k] < |outbox| && !outbox[batch[k]].published)
  }

  ghost predicate Disjoint(a: seq<nat>, b: seq<nat>) {
    forall i, k :: 0 <= i < |a| && 0 <= k < |b| ==> a[i] != b[k]
  }

  ghost predicate LocksOk(s: World) {
    && (forall id :: id in s.relays ==> BatchOk(s.db.outbox, s.relays[id].batch))
    && (forall a, b :: a in s.relays && b in s.relays && a != b ==> Disjoint(s.relays[a].batch, s.relays[b].batch))
  }

  ghost predicate SameRelays(s: World, t: World) {
    forall id :: id in t.relays ==> id in s.relays && t.relays[id].batch == s.relays[id].batch
  }

  /** The rows that were there are as unpublished as they were. */
  ghost predicate NothingMarked(a: seq<OutboxRow>, b: seq<OutboxRow>) {
    |a| <= |b| && forall r :: 0 <= r < |a| ==> b[r].published == a[r].published
  }

  lemma LocksCarryOver(s: World, t: World)
    requires LocksOk(s) && SameRelays(s, t) && NothingMarked(s.db.outbox, t.db.outbox)
    ensures LocksOk(t)
  {}

  /** A new batch takes rows that nobody has locked. */
  lemma SelectLocks(cfg: Settings, s: World, id: string)
    requires LocksOk(s)
    ensures LocksOk(Next(cfg, s, RelaySelect(id)))
  {
    if id !in s.relays {
      var batch := SelectFrom(s.db.outbox, Locked(s.relays), cfg.batchSize, 0);
      BatchIsOldest(s.db.outbox, Locked(s.relays), cfg.batchSize, 0);
      forall b | b in s.relays ensures Disjoint(batch, s.relays[b].batch) && Disjoint(s.relays[b].batch, batch) {
        forall i, k | 0 <= i < |batch| && 0 <= k < |s.relays[b].batch| ensures batch[i] != s.relays[b].batch[k] {
          assert Free(s.db.outbox, Locked(s.relays), batch[i]);
          assert s.relays[b].batch[k] in Locked(s.relays);
        }
      }
    }
  }

  /** A relay that marks its batch touches no row of another. */
  lemma MarkLocks(s: World, id: string, inWindow: bool)
    requires LocksOk(s) && id in s.relays && s.relays[id].sent >= |s.relays[id].batch|
    ensures LocksOk(RelayStep(s, id, inWindow))
  {
    var t, mine := RelayStep(s, id, inWindow), s.relays[id].batch;
    forall b | b in t.relays ensures BatchOk(t.db.outbox, t.relays[b].batch) {
      var batch := s.relays[b].batch;
      assert Disjoint(mine, batch);
      forall k | 0 <= k < |batch| ensures batch[k] < |t.db.outbox| && !t.db.outbox[batch[k]].published {
        assert batch[k] !in mine;
      }
    }
  }

  lemma RelayLocks(cfg: Settings, s: World, id: string, inWindow: bool)
    requires LocksOk(s)
    ensures LocksOk(Next(cfg, s, RelayWork(id, inWindow)))
  {
    RelayUnfolds(cfg, s, id, inWindow);
    if id in s.relays {
      if s.relays[id].sent < |s.relays[id].batch| {
        LocksCarryOver(s, RelayStep(s, id, inWindow));
      } else {
        MarkLocks(s, id, inWindow);
      }
    }
  }

  lemma OthersKeepLocks(cfg: Settings, s: World, step: Step)
    requires !step.RelaySelect? && !step.RelayWork?
    ensures SameRelays(s, Next(cfg, s, step)) && NothingMarked(s.db.outbox, Next(cfg, s, step).db.outbox)
  {
    match step
    case SubmitJob(_, _, _) =>
    case ReplayJob(_) =>
    case RelayDie(_) =>
    case Work(w, env) =>
      WorkUnfolds(cfg, s, w, env);
      if w in s.workers { EffectFramed(s, s.workers[w], ActionAt(cfg, w, s.workers[w], env)); }
    case Listening(l, inWindow) =>
      ListeningFrame(cfg, s, l, inWindow);
      ListenerKeepsOutbox(cfg, s, l, inWindow);
    case _ =>
      TablesFrame(cfg, s, step);
      PeersFrame(cfg, s, step);
  }

  lemma ListenerKeepsOutbox(cfg: Settings, s: World, l: string, inWindow: bool)
    ensures Next(cfg, s, Listening(l, inWindow)).db.outbox == s.db.outbox
  {
    ListenUnfolds(cfg, s, l, inWindow);
    if l in s.listeners && s.listeners[l].msg < |s.stream| {
      match s.listeners[l].pc
      case Load =>
      case Copy =>
      case Mark =>
      case Remove =>
      case Settle =>
    }
  }

  lemma LocksNext(cfg: Settings, s: World, step: Step)
    requires LocksOk(s)
    ensures LocksOk(Next(cfg, s, step))
  {
    if step.RelaySelect? {
      SelectLocks(cfg, s, step.relay);
    } else if step.RelayWork? {
      RelayLocks(cfg, s, step.relay, step.inWindow);
    } else {
      OthersKeepLocks(cfg, s, step);
      LocksCarryOver(s, Next(cfg, s, step));
    }
  }

  lemma {:induction false} RunLocksOk(cfg: Settings, ws: seq<World>, steps: seq<Step>, n: nat)
    requires IsRun(cfg, ws, steps) && n < |ws|
    ensures LocksOk(ws[n])
  {
    if n > 0 {
      RunLocksOk(cfg, ws, steps, n - 1);
      assert Linked(cfg, ws, steps, n - 1);
      LocksNext(cfg, ws[n - 1], steps[n - 1]);
    }
  }

  /**
   In every reachable state, however many relays run and died, no row is in two batches, and no row of a
   batch is marked published while its relay holds it.
   */
  lemma BatchesAreDisjoint(cfg: Settings, s: World, a: string, b: string)
    requires Reachable(cfg, s) && a in s.relays && b in s.relays
    ensures a != b ==> forall r :: r in s.relays[a].batch ==> r !in s.relays[b].batch
    ensures forall k :: 0 <= k < |s.relays[a].batch| ==>
              s.relays[a].batch[k] < |s.db.outbox| && !s.db.outbox[s.relays[a].batch[k]].published
  {
    var ws, steps :| IsRun(cfg, ws, steps) && Last(ws) == s;
    RunLocksOk(cfg, ws, steps, |ws| - 1);
    if a != b { assert Disjoint(s.relays[a].batch, s.relays[b].batch); }
  }
}
