/**
 What a step touches when it is not the move of a worker: the store only loses entries, a handler only
 appears, dies or is interrupted, a message is only delivered, advised, published or quarantined.
 */
module Frames {
  import opened Keys
  import opened System
  import opened Safety

  // ----- the key-value store -----

  ghost predicate Shrinks(a: map<Key, KV.Entry<Owner>>, b: map<Key, KV.Entry<Owner>>) {
    a == b || forall k :: k in b ==> k in a && b[k] == a[k]
  }

  /** An entry goes only when it has expired or the store loses it. */
  ghost predicate Survives(s: World, t: World, step: Step) {
    forall k :: k in s.kv && t.now < s.kv[k].expiresAt && step != Lose(k) ==> k in t.kv && t.kv[k] == s.kv[k]
  }

  lemma SweepShrinks(kv: map<Key, KV.Entry<Owner>>, now: real)
    ensures Shrinks(kv, KV.Sweep(kv, now))
  {}

  lemma LossShrinks(kv: map<Key, KV.Entry<Owner>>, key: Key)
    ensures Shrinks(kv, kv - {key})
  {}

  lemma KeysStay(cfg: Settings, s: World, step: Step)
    requires !step.Work? && !step.Listening? && !step.Tick? && !step.Lose?
    ensures var t := Next(cfg, s, step); t.now == s.now && t.issued == s.issued && t.kv == s.kv
  {
    match step
    case SubmitJob(_, _, _) =>
    case ReplayJob(_) =>
    case RelaySelect(_) =>
    case RelayWork(_, _) =>
    case RelayDie(_) =>
    case Deliver(_, _) =>
    case Advise(_) =>
    case Raise(_) =>
    case Die(_) =>
    case Fetch(_, _) =>
    case Swallow(_) =>
    case ListenerDie(_) =>
  }

  lemma ListeningFrame(cfg: Settings, s: World, l: string, inWindow: bool)
    ensures var t := Next(cfg, s, Listening(l, inWindow));
            t.now == s.now && t.issued == s.issued && t.kv == s.kv && t.workers == s.workers && t.relays == s.relays
  {
    ListenUnfolds(cfg, s, l, inWindow);
    if l in s.listeners { ListenerFrame(s, l, inWindow); }
  }

  lemma KeysFrame(cfg: Settings, s: World, step: Step)
    requires !step.Work?
    ensures var t := Next(cfg, s, step);
            s.now <= t.now && t.issued == s.issued && Shrinks(s.kv, t.kv) && Survives(s, t, step)
  {
    match step
    case Tick(dt) => if dt >= 0.0 { SweepShrinks(s.kv, s.now + dt); }
    case Lose(key) => LossShrinks(s.kv, key);
    case Listening(l, inWindow) => ListeningFrame(cfg, s, l, inWindow);
    case _ => KeysStay(cfg, s, step);
  }

  // ----- the handlers -----

  /** The handler a delivery starts. */
  ghost function Fresh(m: Message, msg: nat): Handler {
    Handler(m.job, Delivery(msg, m.deliveries + 1), if m.payload.poison then NakPoison else CheckDone, 0, 0.0, 0)
  }

  /** Worker w is where it was, starts on a delivery, is interrupted or dies. */
  ghost predicate WorkerFramed(cfg: Settings, s: World, t: World, step: Step, w: WorkerId) {
    if step == Die(w) then w !in t.workers
    else if step == Raise(w) && w in s.workers && InsideTry(s.workers[w].pc) then
      w in t.workers && t.workers[w] == s.workers[w].(pc := ReleaseLease)
    else if step.Deliver? && step.worker == w && CanDeliver(cfg, s, w, step.msg) then
      w in t.workers && t.workers[w] == Fresh(s.stream[step.msg], step.msg)
    else (w in t.workers <==> w in s.workers) && (w in s.workers ==> t.workers[w] == s.workers[w])
  }

  lemma WorkersStay(cfg: Settings, s: World, step: Step)
    requires !step.Work? && !step.Listening? && !step.Deliver? && !step.Raise? && !step.Die?
    ensures Next(cfg, s, step).workers == s.workers
  {
    match step
    case SubmitJob(_, _, _) =>
    case ReplayJob(_) =>
    case Tick(_) =>
    case Lose(_) =>
    case RelaySelect(_) =>
    case RelayWork(_, _) =>
    case RelayDie(_) =>
    case Advise(_) =>
    case Fetch(_, _) =>
    case Swallow(_) =>
    case ListenerDie(_) =>
  }

  lemma WorkersFrame(cfg: Settings, s: World, step: Step, w: WorkerId)
    requires !step.Work?
    ensures WorkerFramed(cfg, s, Next(cfg, s, step), step, w)
  {
    match step
    case Deliver(v, msg) => DeliverUnfolds(cfg, s, v, msg);
    case Raise(_) =>
    case Die(_) =>
    case Listening(l, inWindow) => ListeningFrame(cfg, s, l, inWindow);
    case _ => WorkersStay(cfg, s, step);
  }

  // ----- the messages -----

  /** Message i is as it was, or is delivered, or has its advisory raised. */
  ghost predicate LetterFramed(cfg: Settings, s: World, t: World, step: Step, i: nat)
    requires i < |s.stream|
  {
    && i < |t.stream|
    && (|| t.stream[i] == s.stream[i]
        || (&& step.Deliver? && step.msg == i && CanDeliver(cfg, s, step.worker, i)
            && t.stream[i]
               == s.stream[i].(deliveries := s.stream[i].deliveries + 1, fate := InFlight(s.now + cfg.ackWait)))
        || (step == Advise(i) && CanAdvise(cfg, s, i) && t.stream[i] == s.stream[i].(advisory := Raised)))
  }

  lemma LetterFrame(cfg: Settings, s: World, step: Step, i: nat)
    requires !step.Work? && !step.Listening? && i < |s.stream|
    ensures LetterFramed(cfg, s, Next(cfg, s, step), step, i)
  {
    match step
    case SubmitJob(_, _, _) =>
    case ReplayJob(_) =>
    case Tick(_) =>
    case Lose(_) =>
    case RelaySelect(_) =>
    case RelayWork(_, _) =>
    case RelayDie(_) =>
    case Deliver(_, _) =>
    case Advise(_) =>
    case Raise(_) =>
    case Die(_) =>
    case Fetch(_, _) =>
    case Swallow(_) =>
    case ListenerDie(_) =>
  }

  // ----- tables, relays, listeners and the DLQ -----

  lemma TablesFrame(cfg: Settings, s: World, step: Step)
    requires !step.Work? && !step.Listening? && !step.SubmitJob? && !step.ReplayJob?
    ensures var t := Next(cfg, s, step); t.db.jobs == s.db.jobs && (!step.RelayWork? ==> t.db.outbox == s.db.outbox)
  {
    match step
    case Tick(_) =>
    case Lose(_) =>
    case RelaySelect(_) =>
    case RelayWork(_, _) =>
    case RelayDie(_) =>
    case Deliver(_, _) =>
    case Advise(_) =>
    case Raise(_) =>
    case Die(_) =>
    case Fetch(_, _) =>
    case Swallow(_) =>
    case ListenerDie(_) =>
  }

  lemma PeersFrame(cfg: Settings, s: World, step: Step)
    requires !step.Work? && !step.Listening?
    ensures var t := Next(cfg, s, step);
            && t.dlq == s.dlq
            && (!step.RelaySelect? && !step.RelayWork? && !step.RelayDie? ==> t.relays == s.relays)
            && (!step.Fetch? && !step.Swallow? && !step.ListenerDie? ==> t.listeners == s.listeners)
  {
    match step
    case SubmitJob(_, _, _) =>
    case ReplayJob(_) =>
    case Tick(_) =>
    case Lose(_) =>
    case RelaySelect(_) =>
    case RelayWork(_, _) =>
    case RelayDie(_) =>
    case Deliver(_, _) =>
    case Advise(_) =>
    case Raise(_) =>
    case Die(_) =>
    case Fetch(_, _) =>
    case Swallow(_) =>
    case ListenerDie(_) =>
  }

  /** An effect of a worker leaves relays, listeners and the DLQ alone, and the outbox. */
  lemma EffectFramed(s: World, h: Handler, a: Action)
    ensures var t := Effect(s, h, a);
            && t.dlq == s.dlq && t.relays == s.relays && t.listeners == s.listeners && t.workers == s.workers
            && t.now == s.now && t.db.outbox == s.db.outbox && |t.stream| == |s.stream|
  {}
}
