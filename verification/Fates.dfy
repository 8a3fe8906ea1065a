/**
 What the broker is told about a message, and when. Each answer of a handler, each delivery and each
 deletion is stated in seconds; the fate of every message of every run is traced to the step that caused
 it, its delivery count to its deliveries, and two deliveries of it are a deadline or a nak apart.
 */
module Fates {
  import opened Keys
  import opened System
  import opened Safety
  import opened Frames
  import opened WorkerSteps
  import opened Guarantees
  import opened NoLoss
  import opened Carriers
  import opened Loss

  // ----- the answers, in seconds -----

  /** 2 seconds after the first attempt, doubling, and 30 from the fifth on. */
  ghost predicate RetryAfter(attempt: nat, delay: real) {
    && (attempt == 1 ==> delay == 2.0)
    && (attempt == 2 ==> delay == 4.0)
    && (attempt == 3 ==> delay == 8.0)
    && (attempt == 4 ==> delay == 16.0)
    && (attempt >= 5 ==> delay == 30.0)
  }

  /** The point at which a handler stands decides what becomes of its message, if it is still stored. */
  ghost predicate Answer(now: real, h: Handler, env: Env, fate: Fate) {
    match h.pc
    case AckDuplicate => fate == Acked
    case AckDone => fate == Acked
    case TermFailed => fate == Termed
    case TermObsolete => fate == Termed
    case NakPoison => fate == Ready(now + 0.5)
    case NakBusy =>
      && fate.Ready? && now + 4.0 <= fate.at <= now + 9.0
      && (4.0 <= env.jitter <= 9.0 ==> fate.at == now + env.jitter)
    case NakRetry => fate.Ready? && RetryAfter(h.delivery.attempt, fate.at - now)
    case _ => false
  }

  ghost predicate Answering(pc: Pc) {
    pc == AckDuplicate || pc == AckDone || pc == TermFailed || pc == TermObsolete
    || pc == NakPoison || pc == NakBusy || pc == NakRetry
  }

  /** The step is about message i: an answer to it, a delivery or its deletion. */
  ghost predicate Addresses(cfg: Settings, s: World, step: Step, i: nat) {
    match step
    case Work(w, _) => w in s.workers && s.workers[w].delivery.msg == i && Answering(s.workers[w].pc)
    case Deliver(w, msg) => msg == i && CanDeliver(cfg, s, w, i)
    case Listening(l, _) => l in s.listeners && s.listeners[l] == Quarantine(i, Remove)
    case _ => false
  }

  /** What such a step makes of message i. */
  ghost predicate Causes(cfg: Settings, s: World, step: Step, i: nat, fate: Fate) {
    && Addresses(cfg, s, step, i)
    && match step
       case Work(w, env) => Answer(s.now, s.workers[w], env, fate)
       case Deliver(_, _) => fate == InFlight(s.now + cfg.ackWait)
       case Listening(_, _) => fate == Deleted
       case _ => false
  }

  lemma {:induction false} Pow2Grows(n: nat)
    requires n >= 5
    ensures Pow2(n) >= 32
  {
    if n > 5 { Pow2Grows(n - 1); } else { assert Pow2(5) == 32; }
  }

  lemma BackoffIs(attempt: nat)
    ensures RetryAfter(attempt, Backoff(attempt))
  {
    if attempt >= 5 { Pow2Grows(attempt); }
    assert Pow2(1) == 2 && Pow2(2) == 4 && Pow2(3) == 8 && Pow2(4) == 16;
  }

  lemma ActionAnswers(cfg: Settings, s: World, w: WorkerId, h: Handler, env: Env)
    ensures var a := ActionAt(cfg, w, h, env);
            && (a.Ack? || a.Nak? || a.Term? <==> Answering(h.pc))
            && (a.Ack? ==> Answer(s.now, h, env, Acked))
            && (a.Term? ==> Answer(s.now, h, env, Termed))
            && (a.Nak? ==> Answer(s.now, h, env, Ready(s.now + a.delay)))
  {
    BackoffIs(h.delivery.attempt);
  }

  lemma EffectAnswers(s: World, h: Handler, a: Action, i: nat)
    requires i < |s.stream|
    ensures var t := Effect(s, h, a); var fate := s.stream[i].fate;
            && i < |t.stream|
            && t.stream[i].fate ==
               if h.delivery.msg == i && Stored(fate) && (a.Ack? || a.Nak? || a.Term?)
               then if a.Ack? then Acked else if a.Term? then Termed else Ready(s.now + a.delay)
               else fate
  {}

  /** The whole effect of a step on the fate of a message. */
  ghost predicate FateIs(cfg: Settings, s: World, t: World, step: Step, i: nat)
    requires i < |s.stream|
  {
    && i < |t.stream|
    && if Stored(s.stream[i].fate) && Addresses(cfg, s, step, i) then Causes(cfg, s, step, i, t.stream[i].fate)
       else t.stream[i].fate == s.stream[i].fate
  }

  lemma WorkAnswers(cfg: Settings, s: World, w: WorkerId, env: Env, i: nat)
    requires i < |s.stream|
    ensures FateIs(cfg, s, Next(cfg, s, Work(w, env)), Work(w, env), i)
  {
    WorkUnfolds(cfg, s, w, env);
    if w in s.workers {
      var h := s.workers[w];
      ActionAnswers(cfg, s, w, h, env);
      EffectAnswers(s, h, ActionAt(cfg, w, h, env), i);
    }
  }

  lemma ListenerAnswers(cfg: Settings, s: World, l: string, inWindow: bool, i: nat)
    requires i < |s.stream|
    ensures FateIs(cfg, s, Next(cfg, s, Listening(l, inWindow)), Listening(l, inWindow), i)
  {
    ListenUnfolds(cfg, s, l, inWindow);
    if l in s.listeners && s.listeners[l].msg < |s.stream| {
      match s.listeners[l].pc
      case Load =>
      case Copy =>
      case Mark =>
      case Remove =>
      case Settle =>
    }
  }

  /**
   The broker's answers, whatever the state: a step that addresses a stored message gives it the fate
   that the table above says, in seconds; any other step leaves the fate of every message alone.
   */
  lemma FateMoves(cfg: Settings, s: World, step: Step, i: nat)
    requires i < |s.stream|
    ensures FateIs(cfg, s, Next(cfg, s, step), step, i)
  {
    match step
    case Work(w, env) => WorkAnswers(cfg, s, w, env, i);
    case Listening(l, inWindow) => ListenerAnswers(cfg, s, l, inWindow, i);
    case Deliver(w, msg) => DeliverUnfolds(cfg, s, w, msg);
    case _ => LetterFrame(cfg, s, step, i);
  }

  /** A publication that is not dropped as a duplicate: due at once, never delivered, no advisory. */
  lemma PublicationIs(cfg: Settings, s: World, step: Step, i: nat)
    requires |s.stream| <= i < |Next(cfg, s, step).stream|
    ensures i == |s.stream| && step.RelayWork? && step.relay in s.relays
    ensures var m := Next(cfg, s, step).stream[i];
            && m.row < |s.db.outbox| && m.job == s.db.outbox[m.row].job && m.payload == s.db.outbox[m.row].payload
            && m.deliveries == 0 && m.fate == Ready(s.now) && m.advisory == NotRaised
  {
    StreamLength(cfg, s, step);
    RelayUnfolds(cfg, s, step.relay, step.inWindow);
  }

  // ----- every fate has its cause -----

  /** The fate that message i has at moment n has been its fate ever since step k. */
  ghost predicate Since(ws: seq<World>, k: nat, n: nat, i: nat) {
    k < n < |ws| && i < |ws[n].stream|
    && forall m :: k < m <= n ==> i < |ws[m].stream| && ws[m].stream[i].fate == ws[n].stream[i].fate
  }

  ghost predicate CausedAt(cfg: Settings, ws: seq<World>, steps: seq<Step>, k: nat, n: nat, i: nat) {
    && |ws| == |steps| + 1 && Since(ws, k, n, i)
    && i < |ws[k].stream| && Stored(ws[k].stream[i].fate)
    && Causes(cfg, ws[k], steps[k], i, ws[n].stream[i].fate)
  }

  ghost predicate PublishedAt(ws: seq<World>, steps: seq<Step>, k: nat, n: nat, i: nat) {
    && |ws| == |steps| + 1 && Since(ws, k, n, i)
    && i == |ws[k].stream| && steps[k].RelayWork? && ws[n].stream[i].fate == Ready(ws[k].now)
  }

  lemma StillSince(cfg: Settings, ws: seq<World>, k: nat, n: nat, i: nat)
    requires n + 1 < |ws| && Since(ws, k, n, i) && i < |ws[n + 1].stream|
    requires ws[n + 1].stream[i].fate == ws[n].stream[i].fate
    ensures Since(ws, k, n + 1, i)
  {}

  lemma FateLink(cfg: Settings, ws: seq<World>, steps: seq<Step>, n: nat, i: nat)
    requires Path(cfg, ws, steps) && n < |steps| && i < |ws[n].stream|
    ensures FateIs(cfg, ws[n], ws[n + 1], steps[n], i)
  {
    assert Linked(cfg, ws, steps, n);
    FateMoves(cfg, ws[n], steps[n], i);
  }

  lemma BirthLink(cfg: Settings, ws: seq<World>, steps: seq<Step>, n: nat, i: nat)
    requires Path(cfg, ws, steps) && n < |steps| && |ws[n].stream| <= i < |ws[n + 1].stream|
    ensures PublishedAt(ws, steps, n, n + 1, i) && ws[n + 1].stream[i].deliveries == 0
  {
    assert Linked(cfg, ws, steps, n);
    PublicationIs(cfg, ws[n], steps[n], i);
  }

  /**
   In every run each message is as it was published, due since that moment, or has the fate that the
   last step that addressed it gave it: acked, terminated, deleted, in flight until ack_wait after its
   delivery, or due as long after a nak as the table says.
   */
  lemma {:induction false} EveryFateHasItsCause(cfg: Settings, ws: seq<World>, steps: seq<Step>, n: nat, i: nat)
    requires IsRun(cfg, ws, steps) && n < |ws| && i < |ws[n].stream|
    ensures exists k: nat :: CausedAt(cfg, ws, steps, k, n, i) || PublishedAt(ws, steps, k, n, i)
  {
    if i < |ws[n - 1].stream| {
      FateLink(cfg, ws, steps, n - 1, i);
      EveryFateHasItsCause(cfg, ws, steps, n - 1, i);
      var k: nat :| CausedAt(cfg, ws, steps, k, n - 1, i) || PublishedAt(ws, steps, k, n - 1, i);
      if ws[n].stream[i].fate == ws[n - 1].stream[i].fate {
        StillSince(cfg, ws, k, n - 1, i);
        assert CausedAt(cfg, ws, steps, k, n, i) || PublishedAt(ws, steps, k, n, i);
      } else {
        assert CausedAt(cfg, ws, steps, n - 1, n, i);
      }
    } else {
      BirthLink(cfg, ws, steps, n - 1, i);
    }
  }

  // ----- every delivery is counted -----

  ghost predicate HandsOut(cfg: Settings, s: World, step: Step, i: nat) {
    step.Deliver? && step.msg == i && CanDeliver(cfg, s, step.worker, i)
  }

  /** How often message i has been delivered in the first n steps. */
  ghost function Handed(cfg: Settings, ws: seq<World>, steps: seq<Step>, n: nat, i: nat): nat
    requires |ws| == |steps| + 1 && n <= |steps|
  {
    if n == 0 then 0
    else Handed(cfg, ws, steps, n - 1, i) + if HandsOut(cfg, ws[n - 1], steps[n - 1], i) then 1 else 0
  }

  lemma CountMoves(cfg: Settings, s: World, step: Step, i: nat)
    requires i < |s.stream|
    ensures var t := Next(cfg, s, step);
            && i < |t.stream|
            && t.stream[i].deliveries == s.stream[i].deliveries + if HandsOut(cfg, s, step, i) then 1 else 0
  {
    match step
    case Work(w, env) =>
      WorkUnfolds(cfg, s, w, env);
      if w in s.workers { EffectKeepsCount(s, s.workers[w], ActionAt(cfg, w, s.workers[w], env), i); }
    case Listening(l, inWindow) =>
      ListenUnfolds(cfg, s, l, inWindow);
      if l in s.listeners { ListenerKeepsCount(s, l, inWindow, i); }
    case Deliver(w, msg) => DeliverUnfolds(cfg, s, w, msg);
    case _ => LetterFrame(cfg, s, step, i);
  }

  lemma EffectKeepsCount(s: World, h: Handler, a: Action, i: nat)
    requires i < |s.stream|
    ensures i < |Effect(s, h, a).stream| && Effect(s, h, a).stream[i].deliveries == s.stream[i].deliveries
  {}

  lemma ListenerKeepsCount(s: World, l: string, inWindow: bool, i: nat)
    requires l in s.listeners && i < |s.stream|
    ensures var t := ListenerStep(s, l, inWindow);
            i < |t.stream| && t.stream[i].deliveries == s.stream[i].deliveries
  {
    if s.listeners[l].msg < |s.stream| {
      match s.listeners[l].pc
      case Load =>
      case Copy =>
      case Mark =>
      case Remove =>
      case Settle =>
    }
  }

  lemma {:induction false} NotYetHanded(cfg: Settings, ws: seq<World>, steps: seq<Step>, n: nat, i: nat)
    requires Path(cfg, ws, steps) && n < |ws| && |ws[n].stream| <= i
    ensures Handed(cfg, ws, steps, n, i) == 0
  {
    if n > 0 {
      PathGrows(cfg, ws, steps, n - 1, n);
      NotYetHanded(cfg, ws, steps, n - 1, i);
    }
  }

  /** In every run a message's delivery count is the number of its deliveries. */
  lemma {:induction false} DeliveriesAreCounted(cfg: Settings, ws: seq<World>, steps: seq<Step>, n: nat, i: nat)
    requires IsRun(cfg, ws, steps) && n < |ws| && i < |ws[n].stream|
    ensures ws[n].stream[i].deliveries == Handed(cfg, ws, steps, n, i)
  {
    assert Linked(cfg, ws, steps, n - 1);
    if i < |ws[n - 1].stream| {
      DeliveriesAreCounted(cfg, ws, steps, n - 1, i);
      CountMoves(cfg, ws[n - 1], steps[n - 1], i);
    } else {
      NotYetHanded(cfg, ws, steps, n - 1, i);
      BirthLink(cfg, ws, steps, n - 1, i);
    }
  }

  /** Step k started the handler that w is at moment n. */
  ghost predicate StartedAt(cfg: Settings, ws: seq<World>, steps: seq<Step>, k: nat, n: nat, w: WorkerId) {
    && |ws| == |steps| + 1 && k < n < |ws| && w in ws[n].workers
    && var d := ws[n].workers[w].delivery;
       && steps[k] == Deliver(w, d.msg) && CanDeliver(cfg, ws[k], w, d.msg)
       && d.attempt == Handed(cfg, ws, steps, k, d.msg) + 1
       && ws[n].workers[w].job == ws[k].stream[d.msg].job
  }

  lemma DeliveryKept(cfg: Settings, s: World, step: Step, w: WorkerId)
    requires w in Next(cfg, s, step).workers && !(step.Deliver? && step.worker == w && CanDeliver(cfg, s, w, step.msg))
    ensures var t := Next(cfg, s, step);
            && w in s.workers && t.workers[w].delivery == s.workers[w].delivery
            && t.workers[w].job == s.workers[w].job
  {
    if step.Work? {
      WorkUnfolds(cfg, s, step.worker, step.env);
      if step.worker in s.workers {
        if step.worker == w {
          LearnKeeps(s, s.workers[w], ActionAt(cfg, w, s.workers[w], step.env), step.env);
        } else {
          WorkerMovesItself(cfg, s, step.worker, step.env, w);
        }
      }
    } else {
      WorkersFrame(cfg, s, step, w);
    }
  }

  /** In every run a handler is that of one delivery to its worker, and its attempt is that delivery's number. */
  lemma {:induction false} EveryHandlerHasItsDelivery(
      cfg: Settings, ws: seq<World>, steps: seq<Step>, n: nat, w: WorkerId)
    requires IsRun(cfg, ws, steps) && n < |ws| && w in ws[n].workers
    ensures exists k: nat :: StartedAt(cfg, ws, steps, k, n, w)
  {
    var s, step := ws[n - 1], steps[n - 1];
    assert Linked(cfg, ws, steps, n - 1);
    if step.Deliver? && step.worker == w && CanDeliver(cfg, s, w, step.msg) {
      DeliverUnfolds(cfg, s, w, step.msg);
      DeliveriesAreCounted(cfg, ws, steps, n - 1, step.msg);
      assert StartedAt(cfg, ws, steps, n - 1, n, w);
    } else {
      DeliveryKept(cfg, s, step, w);
      EveryHandlerHasItsDelivery(cfg, ws, steps, n - 1, w);
      var k: nat :| StartedAt(cfg, ws, steps, k, n - 1, w);
      assert StartedAt(cfg, ws, steps, k, n, w);
    }
  }

  // ----- two deliveries of one message -----

  /** Step k naks message i, which is due again at `at`. */
  ghost predicate NaksUntil(ws: seq<World>, steps: seq<Step>, k: nat, i: nat, at: real) {
    && k < |steps| && k < |ws| && steps[k].Work? && steps[k].worker in ws[k].workers
    && var h := ws[k].workers[steps[k].worker];
       h.delivery.msg == i && Answer(ws[k].now, h, steps[k].env, Ready(at))
  }

  /** Since its delivery at step m the message is hidden for ack_wait, has been naked, or is gone. */
  ghost predicate Hidden(cfg: Settings, ws: seq<World>, steps: seq<Step>, m: nat, n: nat, i: nat) {
    && m < n < |ws| && i < |ws[n].stream|
    && match ws[n].stream[i].fate
       case InFlight(until) => ws[m].now + cfg.ackWait <= until
       case Ready(at) => exists k: nat :: m < k < n && NaksUntil(ws, steps, k, i, at)
       case _ => true
  }

  lemma HiddenLink(cfg: Settings, ws: seq<World>, steps: seq<Step>, m: nat, n: nat, i: nat)
    requires Path(cfg, ws, steps) && n < |steps| && Hidden(cfg, ws, steps, m, n, i)
    ensures Hidden(cfg, ws, steps, m, n + 1, i)
  {
    FateLink(cfg, ws, steps, n, i);
    PathGrows(cfg, ws, steps, m, n);
    var before, after := ws[n].stream[i].fate, ws[n + 1].stream[i].fate;
    if after.Ready? {
      if before == after {
        var k: nat :| m < k < n && NaksUntil(ws, steps, k, i, after.at);
        assert m < k < n + 1;
      } else {
        assert NaksUntil(ws, steps, n, i, after.at);
      }
    }
  }

  lemma {:induction false} StaysHidden(cfg: Settings, ws: seq<World>, steps: seq<Step>, m: nat, n: nat, i: nat)
    requires Path(cfg, ws, steps) && m < n < |ws| && HandsOut(cfg, ws[m], steps[m], i)
    ensures Hidden(cfg, ws, steps, m, n, i)
  {
    if n == m + 1 {
      FateLink(cfg, ws, steps, m, i);
    } else {
      StaysHidden(cfg, ws, steps, m, n - 1, i);
      HiddenLink(cfg, ws, steps, m, n - 1, i);
    }
  }

  /**
   On every path two deliveries of one message are ack_wait apart, or a handler of the message naked it
   in between and the delay of that nak has passed: half a second, 4 to 9 seconds, or the back-off.
   */
  lemma DeliveriesAreApart(cfg: Settings, ws: seq<World>, steps: seq<Step>, m: nat, n: nat, i: nat)
    requires Path(cfg, ws, steps) && m < n < |steps|
    requires HandsOut(cfg, ws[m], steps[m], i) && HandsOut(cfg, ws[n], steps[n], i)
    ensures || ws[m].now + cfg.ackWait <= ws[n].now
            || exists k: nat, at :: m < k < n && NaksUntil(ws, steps, k, i, at) && at <= ws[n].now
  {
    StaysHidden(cfg, ws, steps, m, n, i);
  }

  /** An advisory is raised no sooner after a delivery than the next delivery could come. */
  lemma AdvisoryComesAfter(cfg: Settings, ws: seq<World>, steps: seq<Step>, m: nat, n: nat, i: nat)
    requires Path(cfg, ws, steps) && m < n < |steps| && HandsOut(cfg, ws[m], steps[m], i)
    requires i < |ws[n].stream| && i < |ws[n + 1].stream|
    requires ws[n].stream[i].advisory == NotRaised && ws[n + 1].stream[i].advisory == Raised
    ensures cfg.maxDeliver <= ws[n].stream[i].deliveries
    ensures || ws[m].now + cfg.ackWait <= ws[n].now
            || exists k: nat, at :: m < k < n && NaksUntil(ws, steps, k, i, at) && at <= ws[n].now
  {
    StaysHidden(cfg, ws, steps, m, n, i);
    AdvisoryLink(cfg, ws, steps, n, i);
  }

  lemma AdvisoryLink(cfg: Settings, ws: seq<World>, steps: seq<Step>, n: nat, i: nat)
    requires Path(cfg, ws, steps) && n < |steps| && i < |ws[n].stream| && i < |ws[n + 1].stream|
    requires ws[n].stream[i].advisory == NotRaised && ws[n + 1].stream[i].advisory == Raised
    ensures cfg.maxDeliver <= ws[n].stream[i].deliveries && Due(ws[n].stream[i], ws[n].now)
  {
    assert Linked(cfg, ws, steps, n);
    RaisedBy(cfg, ws[n], steps[n], i);
  }

  lemma RaisedBy(cfg: Settings, s: World, step: Step, i: nat)
    requires i < |s.stream| && i < |Next(cfg, s, step).stream|
    requires s.stream[i].advisory == NotRaised && Next(cfg, s, step).stream[i].advisory == Raised
    ensures step == Advise(i) && cfg.maxDeliver <= s.stream[i].deliveries && Due(s.stream[i], s.now)
  {
    match step
    case Work(w, env) =>
      WorkUnfolds(cfg, s, w, env);
      if w in s.workers { EffectKeepsAdvisory(s, s.workers[w], ActionAt(cfg, w, s.workers[w], env), i); }
    case Listening(l, inWindow) =>
      ListenUnfolds(cfg, s, l, inWindow);
      if l in s.listeners { ListenerSettles(s, l, inWindow, i); }
    case _ => LetterFrame(cfg, s, step, i);
  }
}
