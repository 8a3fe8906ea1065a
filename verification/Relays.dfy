/**
 The outbox relay: one round selects a batch, publishes it row by row and marks it; rounds repeat.
 The relay in the step system can be interrupted anywhere; here is what a round achieves.
 */
module Relays {
  import opened Records
  import opened System
  import opened Safety
  import opened Frames
  import opened OtherSteps
  import opened Guarantees
  import opened NoLoss
  import opened Broker

  // ----- the batch -----

  /** Row i waits for publication and nobody has locked it. */
  predicate Free(outbox: seq<OutboxRow>, locked: set<nat>, i: nat) {
    i < |outbox| && !outbox[i].published && i !in locked
  }

  function FreeFrom(outbox: seq<OutboxRow>, locked: set<nat>, i: nat): nat
    decreases |outbox| - i
  {
    if i >= |outbox| then 0 else FreeFrom(outbox, locked, i + 1) + if Free(outbox, locked, i) then 1 else 0
  }

  function Unpublished(outbox: seq<OutboxRow>): nat {
    FreeFrom(outbox, {}, 0)
  }

  /** Min(a, b): how many of b rows a batch of a takes. */
  function Least(a: nat, b: nat): nat {
    if a <= b then a else b
  }

  /** The batch is the oldest free rows, in order, as many as the limit and the supply allow. */
  lemma {:induction false} BatchIsOldest(outbox: seq<OutboxRow>, locked: set<nat>, limit: nat, i: nat)
    ensures var batch := SelectFrom(outbox, locked, limit, i);
            && |batch| == Least(limit, FreeFrom(outbox, locked, i))
            && (forall k :: 0 <= k < |batch| ==> i <= batch[k] && Free(outbox, locked, batch[k]))
            && (forall a, b :: 0 <= a < b < |batch| ==> batch[a] < batch[b])
            && (forall r, k :: i <= r && 0 <= k < |batch| && r < batch[k] && Free(outbox, locked, r) ==> r in batch)
    decreases |outbox| - i
  {
    if i < |outbox| && limit > 0 {
      if Free(outbox, locked, i) {
        var rest := SelectFrom(outbox, locked, limit - 1, i + 1);
        BatchIsOldest(outbox, locked, limit - 1, i + 1);
        FrontedBatch(outbox, locked, rest, i);
        assert SelectFrom(outbox, locked, limit, i) == [i] + rest;
      } else {
        BatchIsOldest(outbox, locked, limit, i + 1);
      }
    }
  }

  lemma FrontedBatch(outbox: seq<OutboxRow>, locked: set<nat>, rest: seq<nat>, i: nat)
    requires Free(outbox, locked, i)
    requires forall k :: 0 <= k < |rest| ==> i < rest[k]
    requires forall a, b :: 0 <= a < b < |rest| ==> rest[a] < rest[b]
    requires forall r, k :: i < r && 0 <= k < |rest| && r < rest[k] && Free(outbox, locked, r) ==> r in rest
    ensures var batch := [i] + rest;
            && (forall a, b :: 0 <= a < b < |batch| ==> batch[a] < batch[b])
            && (forall r, k :: i <= r && 0 <= k < |batch| && r < batch[k] && Free(outbox, locked, r) ==> r in batch)
  {
    var batch := [i] + rest;
    forall r, k | i <= r && 0 <= k < |batch| && r < batch[k] && Free(outbox, locked, r) ensures r in batch {
      if r == i { assert batch[0] == r; } else { assert batch[k] == rest[k - 1]; }
    }
  }

  // ----- marking -----

  /** Marking the batch lowers the number of unpublished rows by the size of the batch. */
  lemma {:induction false} MarkLowers(outbox: seq<OutboxRow>, locked: set<nat>, limit: nat, i: nat, batch: seq<nat>)
    requires forall r :: i <= r ==> (r in batch <==> r in SelectFrom(outbox, locked, limit, i))
    ensures FreeFrom(MarkPublished(outbox, batch), {}, i) + |SelectFrom(outbox, locked, limit, i)|
         == FreeFrom(outbox, {}, i)
    decreases |outbox| - i
  {
    var after := MarkPublished(outbox, batch);
    if i < |outbox| {
      SelectInRange(outbox, locked, limit, i);
      if limit == 0 {
        MarkLowers(outbox, locked, 0, i + 1, batch);
        assert i !in batch;
      } else if outbox[i].published || i in locked {
        BatchIsOldest(outbox, locked, limit, i + 1);
        MarkLowers(outbox, locked, limit, i + 1, batch);
        assert i !in batch;
      } else {
        var rest := SelectFrom(outbox, locked, limit - 1, i + 1);
        assert SelectFrom(outbox, locked, limit, i) == [i] + rest;
        MarkLowers(outbox, locked, limit - 1, i + 1, batch);
        assert i in batch;
      }
    }
  }

  // ----- one round -----

  predicate InRange(batch: seq<nat>, outbox: seq<OutboxRow>) {
    forall k :: 0 <= k < |batch| ==> batch[k] < |outbox|
  }

  /** What the broker holds after publishing the first n rows of a batch. */
  function Sent(
      stream: seq<Message>, outbox: seq<OutboxRow>, batch: seq<nat>, n: nat, now: real, inWindow: nat -> bool)
      : seq<Message>
    requires n <= |batch| && InRange(batch, outbox)
  {
    if n == 0 then stream
    else
      var row := batch[n - 1];
      Accept(Sent(stream, outbox, batch, n - 1, now, inWindow), row, outbox[row], now, inWindow(row))
  }

  ghost predicate AllInWindow(inWindow: nat -> bool) {
    forall r :: inWindow(r)
  }

  /** A round leaves every row of its batch with the broker and, inside the window, no row twice. */
  lemma {:induction false} SentReaches(
      stream: seq<Message>, outbox: seq<OutboxRow>, batch: seq<nat>, n: nat, now: real, inWindow: nat -> bool)
    requires n <= |batch| && InRange(batch, outbox)
    ensures var sent := Sent(stream, outbox, batch, n, now, inWindow);
            && stream <= sent
            && (forall r :: Known(sent, r) <==> Known(stream, r) || r in batch[..n])
            && (AllInWindow(inWindow) && OneLetterPerRow(stream) ==> OneLetterPerRow(sent))
  {
    if n > 0 {
      SentReaches(stream, outbox, batch, n - 1, now, inWindow);
      var before := Sent(stream, outbox, batch, n - 1, now, inWindow);
      AcceptReaches(before, batch[n - 1], outbox[batch[n - 1]], now, inWindow(batch[n - 1]));
      assert batch[..n] == batch[..n - 1] + [batch[n - 1]];
    }
  }

  lemma AcceptReaches(stream: seq<Message>, row: nat, o: OutboxRow, now: real, inWindow: bool)
    ensures var after := Accept(stream, row, o, now, inWindow);
            && stream <= after
            && (forall r :: Known(after, r) <==> Known(stream, r) || r == row)
            && (inWindow && OneLetterPerRow(stream) ==> OneLetterPerRow(after))
  {
    var after := Accept(stream, row, o, now, inWindow);
    forall r ensures Known(after, r) <==> Known(stream, r) || r == row {
      if Known(stream, r) {
        var m :| 0 <= m < |stream| && stream[m].row == r;
        assert after[m].row == r;
      }
      if after != stream { assert after[|stream|].row == row; }
    }
  }

  /** What a round adds to the stream: its rows in order, each with its job and payload, due at once. */
  lemma {:induction false} SentInOrder(
      stream: seq<Message>, outbox: seq<OutboxRow>, batch: seq<nat>, n: nat, now: real, inWindow: nat -> bool)
    requires n <= |batch| && InRange(batch, outbox)
    requires forall a, b :: 0 <= a < b < |batch| ==> batch[a] < batch[b]
    ensures var sent := Sent(stream, outbox, batch, n, now, inWindow);
            && |stream| <= |sent|
            && (forall i :: |stream| <= i < |sent| ==>
                  && sent[i].row in batch[..n] && sent[i].row < |outbox|
                  && sent[i] == Message(outbox[sent[i].row].job, sent[i].row, outbox[sent[i].row].payload,
                                        0, Ready(now), NotRaised))
            && (forall i, k :: |stream| <= i < k < |sent| ==> sent[i].row < sent[k].row)
  {
    if n > 0 {
      SentInOrder(stream, outbox, batch, n - 1, now, inWindow);
      var before := Sent(stream, outbox, batch, n - 1, now, inWindow);
      var sent := Sent(stream, outbox, batch, n, now, inWindow);
      var init := batch[..n - 1];
      assert batch[..n] == init + [batch[n - 1]];
      forall r | r in init ensures r < batch[n - 1] {
        var a :| 0 <= a < n - 1 && batch[a] == r;
      }
      assert forall i :: 0 <= i < |before| ==> sent[i] == before[i];
    }
  }

  /** `relay_once`, alone on the outbox apart from the rows other relays have locked. */
  method RelayOnce(repo: Repository, js: JetStream, locked: set<nat>, batchSize: nat, now: real, inWindow: nat -> bool)
    returns (count: nat)
    modifies repo`outbox, js`stream
    ensures var batch := SelectFrom(old(repo.outbox), locked, batchSize, 0);
            && count == |batch|
            && repo.outbox == MarkPublished(old(repo.outbox), batch)
            && InRange(batch, old(repo.outbox))
            && js.stream == Sent(old(js.stream), old(repo.outbox), batch, |batch|, now, inWindow)
  {
    var batch := SelectFrom(repo.outbox, locked, batchSize, 0);
    SelectInRange(repo.outbox, locked, batchSize, 0);
    for n := 0 to |batch|
      invariant repo.outbox == old(repo.outbox)
      invariant js.stream == Sent(old(js.stream), old(repo.outbox), batch, n, now, inWindow)
    {
      js.Publish(batch[n], repo.outbox[batch[n]], now, inWindow(batch[n]));
    }
    if batch != [] {
      repo.outbox := MarkPublished(repo.outbox, batch);
    }
    return |batch|;
  }

  // ----- draining -----

  lemma {:induction false} NoneFree(outbox: seq<OutboxRow>, i: nat)
    ensures FreeFrom(outbox, {}, i) == 0 <==> forall r :: i <= r < |outbox| ==> outbox[r].published
    decreases |outbox| - i
  {
    if i < |outbox| {
      NoneFree(outbox, i + 1);
      if FreeFrom(outbox, {}, i) == 0 { assert !Free(outbox, {}, i); }
      if forall r :: i <= r < |outbox| ==> outbox[r].published { assert outbox[i].published; }
    }
  }

  /** Row r was published between the two states of the outbox. */
  predicate NewlyMarked(before: seq<OutboxRow>, after: seq<OutboxRow>, r: nat) {
    r < |before| && r < |after| && !before[r].published && after[r].published
  }

  /** One round by a lone relay: the count falls by min(batch, remaining), and what is marked is sent. */
  lemma RoundLowers(outbox: seq<OutboxRow>, batchSize: nat)
    ensures var batch := SelectFrom(outbox, {}, batchSize, 0);
            var after := MarkPublished(outbox, batch);
            && |batch| == Least(batchSize, Unpublished(outbox))
            && Unpublished(after) == Unpublished(outbox) - Least(batchSize, Unpublished(outbox))
            && OutboxGrows(outbox, after)
            && (forall r: nat :: NewlyMarked(outbox, after, r) <==> r in batch)
  {
    BatchIsOldest(outbox, {}, batchSize, 0);
    MarkLowers(outbox, {}, batchSize, 0, SelectFrom(outbox, {}, batchSize, 0));
  }

  /** From one state to the other, exactly the rows marked on the way have reached the broker. */
  ghost predicate Conveys(before: seq<OutboxRow>, after: seq<OutboxRow>, stream: seq<Message>, sent: seq<Message>) {
    && |before| == |after| && OutboxGrows(before, after) && stream <= sent
    && (forall r: nat :: Known(sent, r) <==> Known(stream, r) || NewlyMarked(before, after, r))
  }

  /** Where the loop stands after so many rounds: what it has conveyed, and what is left. */
  ghost predicate Drained(
      before: seq<OutboxRow>, after: seq<OutboxRow>, stream: seq<Message>, sent: seq<Message>,
      rounds: nat, batchSize: nat, inWindow: nat -> bool)
  {
    && Conveys(before, after, stream, sent)
    && Unpublished(after) == Remaining(Unpublished(before), rounds, batchSize)
    && (rounds > 0 ==> Remaining(Unpublished(before), rounds - 1, batchSize) > 0)
    && (AllInWindow(inWindow) && OneLetterPerRow(stream) ==> OneLetterPerRow(sent))
  }

  lemma NextRound(
      before: seq<OutboxRow>, outbox: seq<OutboxRow>, stream: seq<Message>, sent: seq<Message>,
      rounds: nat, batchSize: nat, now: real, inWindow: nat -> bool)
    requires Drained(before, outbox, stream, sent, rounds, batchSize, inWindow)
    requires InRange(SelectFrom(outbox, {}, batchSize, 0), outbox)
    ensures var batch := SelectFrom(outbox, {}, batchSize, 0);
            && |batch| == Least(batchSize, Unpublished(outbox))
            && Drained(before, MarkPublished(outbox, batch), stream, Sent(sent, outbox, batch, |batch|, now, inWindow),
                       if batch == [] then rounds else rounds + 1, batchSize, inWindow)
  {
    var batch := SelectFrom(outbox, {}, batchSize, 0);
    var next := Sent(sent, outbox, batch, |batch|, now, inWindow);
    RoundLowers(outbox, batchSize);
    RemainingAfterRound(Unpublished(before), rounds, batchSize);
    RoundConveys(outbox, sent, batchSize, now, inWindow);
    ConveysTrans(before, outbox, MarkPublished(outbox, batch), stream, sent, next);
    SentReaches(sent, outbox, batch, |batch|, now, inWindow);
  }

  lemma RoundConveys(outbox: seq<OutboxRow>, stream: seq<Message>, batchSize: nat, now: real, inWindow: nat -> bool)
    requires InRange(SelectFrom(outbox, {}, batchSize, 0), outbox)
    ensures var batch := SelectFrom(outbox, {}, batchSize, 0);
            Conveys(outbox, MarkPublished(outbox, batch), stream, Sent(stream, outbox, batch, |batch|, now, inWindow))
  {
    var batch := SelectFrom(outbox, {}, batchSize, 0);
    assert batch[..|batch|] == batch;
    RoundLowers(outbox, batchSize);
    SentReaches(stream, outbox, batch, |batch|, now, inWindow);
  }

  lemma ConveysTrans(
      a: seq<OutboxRow>, b: seq<OutboxRow>, c: seq<OutboxRow>, x: seq<Message>, y: seq<Message>, z: seq<Message>)
    requires Conveys(a, b, x, y) && Conveys(b, c, y, z)
    ensures Conveys(a, c, x, z)
  {
    forall r: nat ensures Known(z, r) <==> Known(x, r) || NewlyMarked(a, c, r) {
      assert Known(z, r) <==> Known(y, r) || NewlyMarked(b, c, r);
      assert NewlyMarked(a, c, r) <==> NewlyMarked(a, b, r) || NewlyMarked(b, c, r);
    }
  }

  /** How many of `total` rows are left after so many rounds. */
  function Remaining(total: nat, rounds: nat, batchSize: nat): nat {
    if rounds * batchSize <= total then total - rounds * batchSize else 0
  }

  lemma RemainingAfterRound(total: nat, rounds: nat, batchSize: nat)
    ensures Remaining(total, rounds + 1, batchSize)
         == Remaining(total, rounds, batchSize) - Least(batchSize, Remaining(total, rounds, batchSize))
  {
    assert (rounds + 1) * batchSize == rounds * batchSize + batchSize;
  }

  /**
   The relay's loop, up to its first idle round and without new inserts: it terminates with every
   row published, after exactly as many rounds as the batch size needs, having sent what was
   unpublished and nothing else.
   */
  method Drain(repo: Repository, js: JetStream, batchSize: nat, now: real, inWindow: nat -> bool) returns (rounds: nat)
    requires batchSize > 0
    modifies repo`outbox, js`stream
    ensures Conveys(old(repo.outbox), repo.outbox, old(js.stream), js.stream)
    ensures forall r :: 0 <= r < |repo.outbox| ==> repo.outbox[r].published
    ensures rounds == 0 <==> Unpublished(old(repo.outbox)) == 0
    ensures rounds > 0 ==> (rounds - 1) * batchSize < Unpublished(old(repo.outbox)) <= rounds * batchSize
    ensures AllInWindow(inWindow) && OneLetterPerRow(old(js.stream)) ==> OneLetterPerRow(js.stream)
  {
    rounds := 0;
    var idle := false;
    while !idle
      invariant Drained(old(repo.outbox), repo.outbox, old(js.stream), js.stream, rounds, batchSize, inWindow)
      invariant idle ==> Unpublished(repo.outbox) == 0
      decreases Unpublished(repo.outbox), !idle
    {
      ghost var outbox, stream := repo.outbox, js.stream;
      var count := RelayOnce(repo, js, {}, batchSize, now, inWindow);
      NextRound(old(repo.outbox), outbox, old(js.stream), stream, rounds, batchSize, now, inWindow);
      RoundLowers(outbox, batchSize);
      if count > 0 {
        rounds := rounds + 1;
      } else {
        idle := true;
      }
    }
    NoneFree(repo.outbox, 0);
  }

  // ----- the round in the step system -----

  /** Neither a new row, nor another relay, nor the death of this one. */
  ghost predicate LeavesRelayAlone(step: Step, id: string) {
    !step.SubmitJob? && !step.ReplayJob? && !step.RelaySelect? && step != RelayDie(id)
  }

  ghost predicate Midway(s: World, id: string, outbox: seq<OutboxRow>, batch: seq<nat>, sent: nat) {
    s.db.outbox == outbox && s.relays == map[id := Relay(batch, sent)] && sent <= |batch|
  }

  ghost predicate Finished(s: World, outbox: seq<OutboxRow>, batch: seq<nat>) {
    s.db.outbox == MarkPublished(outbox, batch) && s.relays == map[]
  }

  lemma BystanderLeavesRelays(cfg: Settings, s: World, step: Step, id: string)
    requires LeavesRelayAlone(step, id) && s.relays.Keys <= {id} && !TurnOf(step, id)
    ensures Next(cfg, s, step).relays == s.relays && Next(cfg, s, step).db.outbox == s.db.outbox
  {
    match step
    case RelayWork(other, inWindow) => RelayUnfolds(cfg, s, other, inWindow);
    case RelayDie(_) =>
    case Work(w, env) =>
      WorkUnfolds(cfg, s, w, env);
      if w in s.workers { EffectFramed(s, s.workers[w], ActionAt(cfg, w, s.workers[w], env)); }
    case Listening(l, inWindow) =>
      ListeningFrame(cfg, s, l, inWindow);
      ListenUnfolds(cfg, s, l, inWindow);
      if l in s.listeners { ListenerOutbox(s, l, inWindow); }
    case _ =>
      PeersFrame(cfg, s, step);
      TablesFrame(cfg, s, step);
  }

  lemma ListenerOutbox(s: World, l: string, inWindow: bool)
    requires l in s.listeners
    ensures ListenerStep(s, l, inWindow).db.outbox == s.db.outbox
  {
    if s.listeners[l].msg < |s.stream| {
      match s.listeners[l].pc
      case Load =>
      case Copy =>
      case Mark =>
      case Remove =>
      case Settle =>
    }
  }

  ghost predicate TurnOf(step: Step, id: string) {
    step.RelayWork? && step.relay == id
  }

  /** How many of the first n steps are turns of the relay. */
  ghost function Turns(steps: seq<Step>, id: string, n: nat): nat
    requires n <= |steps|
  {
    if n == 0 then 0 else Turns(steps, id, n - 1) + if TurnOf(steps[n - 1], id) then 1 else 0
  }

  ghost predicate LeaveRelayAlone(steps: seq<Step>, id: string) {
    forall n :: 0 <= n < |steps| ==> LeavesRelayAlone(steps[n], id)
  }

  /** Where the round of a lone relay stands after so many of its turns. */
  ghost predicate InRound(s: World, id: string, outbox: seq<OutboxRow>, batch: seq<nat>, turns: nat) {
    if turns <= |batch| then Midway(s, id, outbox, batch, turns) else Finished(s, outbox, batch)
  }

  lemma RoundGoesOn(
      cfg: Settings, s: World, step: Step, id: string, outbox: seq<OutboxRow>, batch: seq<nat>, turns: nat)
    requires InRound(s, id, outbox, batch, turns) && LeavesRelayAlone(step, id)
    ensures InRound(Next(cfg, s, step), id, outbox, batch, if TurnOf(step, id) then turns + 1 else turns)
  {
    if TurnOf(step, id) {
      RelayTurn(cfg, s, id, step.inWindow);
    } else {
      BystanderLeavesRelays(cfg, s, step, id);
    }
  }

  lemma RoundBegins(cfg: Settings, s: World, id: string)
    requires s.relays == map[]
    ensures InRound(Next(cfg, s, RelaySelect(id)), id, s.db.outbox, SelectFrom(s.db.outbox, {}, cfg.batchSize, 0), 0)
  {
    assert Locked(s.relays) == {};
  }

  /** A lone relay's round, interleaved with everybody else: midway until its last turn, then finished. */
  lemma {:induction false} LoneRound(cfg: Settings, s: World, id: string, ws: seq<World>, steps: seq<Step>, n: nat)
    requires s.relays == map[] && Path(cfg, ws, steps) && ws[0] == Next(cfg, s, RelaySelect(id))
    requires LeaveRelayAlone(steps, id) && n < |ws|
    ensures InRound(ws[n], id, s.db.outbox, SelectFrom(s.db.outbox, {}, cfg.batchSize, 0), Turns(steps, id, n))
  {
    if n == 0 {
      RoundBegins(cfg, s, id);
    } else {
      LoneRound(cfg, s, id, ws, steps, n - 1);
      assert Linked(cfg, ws, steps, n - 1) && LeavesRelayAlone(steps[n - 1], id);
      RoundGoesOn(cfg, ws[n - 1], steps[n - 1], id,
                  s.db.outbox, SelectFrom(s.db.outbox, {}, cfg.batchSize, 0), Turns(steps, id, n - 1));
    }
  }

  lemma RelayTurn(cfg: Settings, s: World, id: string, inWindow: bool)
    ensures var t := Next(cfg, s, RelayWork(id, inWindow));
            if id !in s.relays then t == s
            else
              var r := s.relays[id];
              if r.sent < |r.batch| then t.db == s.db && t.relays == s.relays[id := r.(sent := r.sent + 1)]
              else t.db.outbox == MarkPublished(s.db.outbox, r.batch) && t.relays == s.relays - {id}
  {}

  /**
   Without new inserts a completed round by a lone relay lowers the unpublished count by
   min(batch, remaining), whatever workers, listeners and the broker do meanwhile.
   */
  lemma CompletedRoundLowers(cfg: Settings, s: World, id: string, ws: seq<World>, steps: seq<Step>)
    requires s.relays == map[] && Path(cfg, ws, steps) && ws[0] == Next(cfg, s, RelaySelect(id))
    requires LeaveRelayAlone(steps, id) && Turns(steps, id, |steps|) > Least(cfg.batchSize, Unpublished(s.db.outbox))
    ensures Last(ws).relays == map[]
    ensures Unpublished(Last(ws).db.outbox)
         == Unpublished(s.db.outbox) - Least(cfg.batchSize, Unpublished(s.db.outbox))
  {
    LoneRound(cfg, s, id, ws, steps, |steps|);
    RoundLowers(s.db.outbox, cfg.batchSize);
  }

  // ----- the method is the uninterrupted round -----

  /** The relay publishes the first n rows of its batch, with nobody else moving. */
  ghost function PublishAlone(
      cfg: Settings, s: World, id: string, batch: seq<nat>, n: nat, inWindow: nat -> bool): World
    requires n <= |batch|
  {
    if n == 0 then s
    else Next(cfg, PublishAlone(cfg, s, id, batch, n - 1, inWindow), RelayWork(id, inWindow(batch[n - 1])))
  }

  ghost function Publishing(s: World, id: string, stream: seq<Message>, batch: seq<nat>, n: nat): World {
    s.(stream := stream, relays := map[id := Relay(batch, n)])
  }

  lemma PublishTurn(cfg: Settings, s: World, id: string, stream: seq<Message>, batch: seq<nat>, n: nat, inWindow: bool)
    requires n < |batch| && batch[n] < |s.db.outbox|
    ensures Next(cfg, Publishing(s, id, stream, batch, n), RelayWork(id, inWindow))
         == Publishing(s, id, Accept(stream, batch[n], s.db.outbox[batch[n]], s.now, inWindow), batch, n + 1)
  {}

  lemma {:induction false} PublishRefines(
      cfg: Settings, s: World, id: string, batch: seq<nat>, n: nat, inWindow: nat -> bool)
    requires n <= |batch| && InRange(batch, s.db.outbox)
    ensures PublishAlone(cfg, Publishing(s, id, s.stream, batch, 0), id, batch, n, inWindow)
         == Publishing(s, id, Sent(s.stream, s.db.outbox, batch, n, s.now, inWindow), batch, n)
  {
    if n > 0 {
      PublishRefines(cfg, s, id, batch, n - 1, inWindow);
      var stream := Sent(s.stream, s.db.outbox, batch, n - 1, s.now, inWindow);
      PublishTurn(cfg, s, id, stream, batch, n - 1, inWindow(batch[n - 1]));
    }
  }

  /** What `RelayOnce` leaves behind is what the step system reaches when nobody interrupts the relay. */
  lemma RoundRefines(cfg: Settings, s: World, id: string, inWindow: nat -> bool)
    requires s.relays == map[]
    ensures var batch := SelectFrom(s.db.outbox, {}, cfg.batchSize, 0);
            var published := PublishAlone(cfg, Next(cfg, s, RelaySelect(id)), id, batch, |batch|, inWindow);
            && InRange(batch, s.db.outbox)
            && Next(cfg, published, RelayWork(id, true))
               == s.(stream := Sent(s.stream, s.db.outbox, batch, |batch|, s.now, inWindow),
                     db := s.db.(outbox := MarkPublished(s.db.outbox, batch)))
  {
    var batch := SelectFrom(s.db.outbox, {}, cfg.batchSize, 0);
    SelectInRange(s.db.outbox, {}, cfg.batchSize, 0);
    assert Locked(s.relays) == {};
    assert Next(cfg, s, RelaySelect(id)) == Publishing(s, id, s.stream, batch, 0);
    PublishRefines(cfg, s, id, batch, |batch|, inWindow);
  }

  // ----- an unseen row can always be published -----

  ghost predicate PublishesInWindow(step: Step) {
    step.RelayWork? ==> step.inWindow
  }

  /** Some steps lead from s to t, with every publication inside the dedupe window. */
  ghost predicate Leads(cfg: Settings, s: World, t: World) {
    exists ws, steps :: Path(cfg, ws, steps) && ws[0] == s && Last(ws) == t && AllPublishInWindow(steps)
  }

  ghost predicate AllPublishInWindow(steps: seq<Step>) {
    forall i :: 0 <= i < |steps| ==> PublishesInWindow(steps[i])
  }

  lemma LeadsNowhere(cfg: Settings, s: World)
    ensures Leads(cfg, s, s)
  {
    assert Path(cfg, [s], []) && AllPublishInWindow([]);
  }

  lemma LeadsOn(cfg: Settings, s: World, t: World, step: Step)
    requires Leads(cfg, s, t) && PublishesInWindow(step)
    ensures Leads(cfg, s, Next(cfg, t, step))
  {
    var ws, steps :| Path(cfg, ws, steps) && ws[0] == s && Last(ws) == t && AllPublishInWindow(steps);
    PathExtends(cfg, ws, steps, step);
    assert AllPublishInWindow(steps + [step]);
  }

  lemma {:induction false} PublishingLeads(
      cfg: Settings, s: World, t: World, id: string, batch: seq<nat>, n: nat, inWindow: nat -> bool)
    requires Leads(cfg, s, t) && n <= |batch| && AllInWindow(inWindow)
    ensures Leads(cfg, s, PublishAlone(cfg, t, id, batch, n, inWindow))
  {
    if n > 0 {
      PublishingLeads(cfg, s, t, id, batch, n - 1, inWindow);
      LeadsOn(cfg, s, PublishAlone(cfg, t, id, batch, n - 1, inWindow), RelayWork(id, inWindow(batch[n - 1])));
    }
  }

  ghost function Batch(cfg: Settings, s: World): seq<nat> {
    SelectFrom(s.db.outbox, {}, cfg.batchSize, 0)
  }

  /** The world after an uninterrupted round inside the window. */
  ghost function AfterRound(cfg: Settings, s: World): World
    requires InRange(Batch(cfg, s), s.db.outbox)
  {
    s.(stream := Sent(s.stream, s.db.outbox, Batch(cfg, s), |Batch(cfg, s)|, s.now, r => true),
       db := s.db.(outbox := MarkPublished(s.db.outbox, Batch(cfg, s))))
  }

  lemma RoundLeads(cfg: Settings, s: World, t: World)
    requires Leads(cfg, s, t) && t.relays == map[]
    ensures InRange(Batch(cfg, t), t.db.outbox) && Leads(cfg, s, AfterRound(cfg, t))
  {
    var always := r => true;
    RoundRefines(cfg, t, "", always);
    LeadsOn(cfg, s, t, RelaySelect(""));
    var selected := Next(cfg, t, RelaySelect(""));
    PublishingLeads(cfg, s, selected, "", Batch(cfg, t), |Batch(cfg, t)|, always);
    LeadsOn(cfg, s, PublishAlone(cfg, selected, "", Batch(cfg, t), |Batch(cfg, t)|, always), RelayWork("", true));
    SentAlike(t.stream, t.db.outbox, Batch(cfg, t), |Batch(cfg, t)|, t.now, always, r => true);
  }

  lemma {:induction false} SentAlike(
      stream: seq<Message>, outbox: seq<OutboxRow>, batch: seq<nat>, n: nat, now: real, f: nat -> bool, g: nat -> bool)
    requires n <= |batch| && InRange(batch, outbox) && forall r :: f(r) == g(r)
    ensures Sent(stream, outbox, batch, n, now, f) == Sent(stream, outbox, batch, n, now, g)
  {
    if n > 0 { SentAlike(stream, outbox, batch, n - 1, now, f, g); }
  }

  /** What a round adds to the stream is new and stored. */
  lemma {:induction false} SentIsFresh(
      stream: seq<Message>, outbox: seq<OutboxRow>, batch: seq<nat>, n: nat, now: real, inWindow: nat -> bool)
    requires n <= |batch| && InRange(batch, outbox)
    ensures var sent := Sent(stream, outbox, batch, n, now, inWindow);
            && stream <= sent
            && forall i :: |stream| <= i < |sent| ==> Stored(sent[i].fate) && sent[i].advisory == NotRaised
  {
    if n > 0 { SentIsFresh(stream, outbox, batch, n - 1, now, inWindow); }
  }

  lemma SentIsAlive(cfg: Settings, s: World, r: nat)
    requires InRange(Batch(cfg, s), s.db.outbox) && Waits(s, r) && r in Batch(cfg, s)
    ensures AliveBut(AfterRound(cfg, s), r, -1)
  {
    var batch, t := Batch(cfg, s), AfterRound(cfg, s);
    SentReaches(s.stream, s.db.outbox, batch, |batch|, s.now, r => true);
    SentIsFresh(s.stream, s.db.outbox, batch, |batch|, s.now, r => true);
    assert batch[..|batch|] == batch;
    assert forall k :: 0 <= k < |s.stream| ==> s.stream[k].row != r && t.stream[k] == s.stream[k];
    var i :| 0 <= i < |t.stream| && t.stream[i].row == r;
    assert Alive(t, i);
  }

  lemma StillWaits(cfg: Settings, s: World, r: nat)
    requires InRange(Batch(cfg, s), s.db.outbox) && Waits(s, r) && r !in Batch(cfg, s) && cfg.batchSize > 0
    ensures Waits(AfterRound(cfg, s), r)
    ensures Unpublished(AfterRound(cfg, s).db.outbox) < Unpublished(s.db.outbox)
  {
    var batch := Batch(cfg, s);
    SentReaches(s.stream, s.db.outbox, batch, |batch|, s.now, r => true);
    assert batch[..|batch|] == batch;
    RoundLowers(s.db.outbox, cfg.batchSize);
    NoneFree(s.db.outbox, 0);
  }

  lemma {:induction false} RowIsReached(cfg: Settings, s: World, t: World, r: nat)
    requires Leads(cfg, s, t) && t.relays == map[] && Waits(t, r) && cfg.batchSize > 0
    ensures exists u :: Leads(cfg, s, u) && u.db.jobs == t.db.jobs && AliveBut(u, r, -1)
    decreases Unpublished(t.db.outbox)
  {
    RoundLeads(cfg, s, t);
    if r in Batch(cfg, t) {
      SentIsAlive(cfg, t, r);
    } else {
      StillWaits(cfg, t, r);
      RowIsReached(cfg, s, AfterRound(cfg, t), r);
    }
  }

  lemma {:induction false} RelaysCanGo(cfg: Settings, s: World, t: World)
    requires Leads(cfg, s, t)
    ensures Leads(cfg, s, t.(relays := map[]))
    decreases |t.relays|
  {
    if id :| id in t.relays {
      LeadsOn(cfg, s, t, RelayDie(id));
      FewerRelays(t.relays, id);
      RelaysCanGo(cfg, s, t.(relays := t.relays - {id}));
    } else {
      assert t.relays == map[];
    }
  }

  lemma FewerRelays(relays: map<string, Relay>, id: string)
    requires id in relays
    ensures |relays - {id}| < |relays|
  {
    assert (relays - {id}).Keys == relays.Keys - {id};
    assert |relays.Keys - {id}| < |relays.Keys|;
  }

  /** A row that the broker has not seen can be published: some steps lead to an alive message of it. */
  lemma WaitingRowIsReached(cfg: Settings, s: World, r: nat)
    requires Waits(s, r) && cfg.batchSize > 0
    ensures exists t :: Leads(cfg, s, t) && t.db.jobs == s.db.jobs && AliveBut(t, r, -1)
  {
    LeadsNowhere(cfg, s);
    RelaysCanGo(cfg, s, s);
    RowIsReached(cfg, s, s.(relays := map[]), r);
  }
}
