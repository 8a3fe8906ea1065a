/**
 Nothing is left of a job's older life. Of its outbox rows below a bound, the broker has seen every one,
 no message of them is alive, and no quarantine of such a message is still going to write.
 */
module OldLives {
  import opened Keys
  import opened System
  import opened Safety
  import opened Frames
  import opened Preservation
  import opened OtherSteps
  import opened Guarantees
  import opened NoLoss
  import opened Carriers

  /** The quarantine has its audit write still ahead of it. */
  ghost predicate WillMark(s: World, q: Quarantine) {
    q.pc == Copy || q.pc == Mark || (q.pc == Load && q.msg < |s.stream| && Stored(s.stream[q.msg].fate))
  }

  /** Message i is one of the job's, of a row below the bound. */
  ghost predicate Old(s: World, i: nat, j: JobId, bound: int) {
    Concerns(s, i, j) && s.stream[i].row < bound
  }

  ghost predicate RowsSeen(s: World, j: JobId, bound: int) {
    forall r :: 0 <= r < bound && r < |s.db.outbox| && s.db.outbox[r].job == j ==> Known(s.stream, r)
  }

  ghost predicate LettersDead(s: World, j: JobId, bound: int) {
    forall i :: 0 <= i < |s.stream| && Old(s, i, j, bound) ==> !Alive(s, i)
  }

  ghost predicate ListenersDone(s: World, j: JobId, bound: int) {
    forall l :: l in s.listeners && Old(s, s.listeners[l].msg, j, bound) ==> !WillMark(s, s.listeners[l])
  }

  ghost predicate Quiet(s: World, j: JobId, bound: int) {
    RowsSeen(s, j, bound) && LettersDead(s, j, bound) && ListenersDone(s, j, bound)
  }

  /** A relay publishes one of these rows again, outside the dedupe window. */
  ghost predicate Reopens(s: World, step: Step, j: JobId, bound: int) {
    && step.RelayWork? && !step.inWindow && step.relay in s.relays
    && var r := s.relays[step.relay];
       && r.sent < |r.batch| && r.batch[r.sent] < |s.db.outbox|
       && s.db.outbox[r.batch[r.sent]].job == j && r.batch[r.sent] < bound
  }

  // ----- quiet stays quiet -----

  lemma RowsStaySeen(s: World, t: World, j: JobId, bound: int)
    requires RowsSeen(s, j, bound) && bound <= |s.db.outbox| && Grows(s, t)
    ensures RowsSeen(t, j, bound)
  {
    forall r | 0 <= r < bound && t.db.outbox[r].job == j ensures Known(t.stream, r) {
      assert s.db.outbox[r].job == j;
      KnownStays(s.stream, t.stream, r);
    }
  }

  /** A new message of an old row comes only from a publication outside the window. */
  lemma NewLetterIsNotOld(cfg: Settings, s: World, step: Step, i: nat, j: JobId, bound: int)
    requires RowsSeen(s, j, bound) && !Reopens(s, step, j, bound)
    requires var t := Next(cfg, s, step); |s.stream| <= i < |t.stream| && MessageOk(cfg, t, i) && Grows(s, t)
    ensures !Old(Next(cfg, s, step), i, j, bound)
  {
    StreamLength(cfg, s, step);
    var row := Next(cfg, s, step).stream[i].row;
    assert s.db.outbox[row].job == Next(cfg, s, step).stream[i].job;
  }

  lemma LettersStayDead(cfg: Settings, s: World, step: Step, j: JobId, bound: int)
    requires RowsSeen(s, j, bound) && LettersDead(s, j, bound) && !Reopens(s, step, j, bound)
    requires MessagesOk(cfg, Next(cfg, s, step)) && Grows(s, Next(cfg, s, step))
    ensures LettersDead(Next(cfg, s, step), j, bound)
  {
    var t := Next(cfg, s, step);
    forall i | 0 <= i < |t.stream| && Old(t, i, j, bound) ensures !Alive(t, i) {
      if i < |s.stream| {
        assert SameLetter(s.stream[i], t.stream[i]);
        DeadStaysDead(cfg, s, step, i);
      } else {
        assert MessageOk(cfg, t, i);
        NewLetterIsNotOld(cfg, s, step, i, j, bound);
      }
    }
  }

  /** A quarantine that has no audit write ahead of it goes straight to its end. */
  lemma DoneStaysDone(s: World, l: string, inWindow: bool)
    requires l in s.listeners && s.listeners[l].msg < |s.stream| && !WillMark(s, s.listeners[l])
    ensures var t := ListenerStep(s, l, inWindow); l in t.listeners ==> !WillMark(t, t.listeners[l])
  {
    match s.listeners[l].pc
    case Load =>
    case Remove =>
    case Settle =>
  }

  /** A quarantine that was there before, and that the step may have moved. */
  lemma OldListenerStaysDone(cfg: Settings, s: World, step: Step, l: string)
    requires l in s.listeners && s.listeners[l].msg < |s.stream| && !WillMark(s, s.listeners[l])
    requires l in Next(cfg, s, step).listeners && Grows(s, Next(cfg, s, step))
    ensures !WillMark(Next(cfg, s, step), Next(cfg, s, step).listeners[l])
  {
    var q := s.listeners[l];
    assert SameLetter(s.stream[q.msg], Next(cfg, s, step).stream[q.msg]);
    match step
    case Listening(k, inWindow) =>
      ListenUnfolds(cfg, s, k, inWindow);
      if k == l { DoneStaysDone(s, l, inWindow); } else if k in s.listeners { ListenerMovesItself(s, k, inWindow, l); }
    case Swallow(_) =>
    case Fetch(_, _) =>
    case ListenerDie(_) =>
    case Work(w, env) =>
      WorkUnfolds(cfg, s, w, env);
      if w in s.workers { EffectFramed(s, s.workers[w], ActionAt(cfg, w, s.workers[w], env)); }
    case _ => PeersFrame(cfg, s, step);
  }

  /** A new quarantine of a dead message finds it gone. */
  lemma NewListenerIsDone(cfg: Settings, s: World, step: Step, l: string)
    requires l !in s.listeners && l in Next(cfg, s, step).listeners
    requires var q := Next(cfg, s, step).listeners[l]; q.msg < |s.stream| && !Alive(s, q.msg)
    requires Grows(s, Next(cfg, s, step))
    ensures !WillMark(Next(cfg, s, step), Next(cfg, s, step).listeners[l])
  {
    OnlyFetchBegins(cfg, s, step, l);
    var q := Next(cfg, s, step).listeners[l];
    assert SameLetter(s.stream[q.msg], Next(cfg, s, step).stream[q.msg]);
  }

  lemma OnlyFetchBegins(cfg: Settings, s: World, step: Step, l: string)
    requires l !in s.listeners && l in Next(cfg, s, step).listeners
    ensures step.Fetch? && step.listener == l && step.msg < |s.stream| && s.stream[step.msg].advisory == Raised
    ensures Next(cfg, s, step).listeners[l] == Quarantine(step.msg, Load)
  {
    match step
    case Listening(k, inWindow) =>
      ListenUnfolds(cfg, s, k, inWindow);
      if k in s.listeners { ListenerMovesItself(s, k, inWindow, l); }
    case Swallow(_) =>
    case Fetch(_, _) =>
    case ListenerDie(_) =>
    case Work(w, env) =>
      WorkUnfolds(cfg, s, w, env);
      if w in s.workers { EffectFramed(s, s.workers[w], ActionAt(cfg, w, s.workers[w], env)); }
    case _ => PeersFrame(cfg, s, step);
  }

  lemma ListenersStayDone(cfg: Settings, s: World, step: Step, j: JobId, bound: int)
    requires LettersDead(s, j, bound) && ListenersDone(s, j, bound) && Grows(s, Next(cfg, s, step))
    requires forall l :: l in s.listeners ==> ListenerOk(s, l)
    ensures ListenersDone(Next(cfg, s, step), j, bound)
  {
    var t := Next(cfg, s, step);
    forall l | l in t.listeners && Old(t, t.listeners[l].msg, j, bound) ensures !WillMark(t, t.listeners[l]) {
      ListenerStaysDone(cfg, s, step, l, j, bound);
    }
  }

  lemma ListenerStaysDone(cfg: Settings, s: World, step: Step, l: string, j: JobId, bound: int)
    requires LettersDead(s, j, bound) && ListenersDone(s, j, bound) && Grows(s, Next(cfg, s, step))
    requires l in s.listeners ==> ListenerOk(s, l)
    requires var t := Next(cfg, s, step); l in t.listeners && Old(t, t.listeners[l].msg, j, bound)
    ensures !WillMark(Next(cfg, s, step), Next(cfg, s, step).listeners[l])
  {
    var t := Next(cfg, s, step);
    var i := t.listeners[l].msg;
    if l in s.listeners {
      ListenerKeepsMessage(cfg, s, step, l);
      assert SameLetter(s.stream[i], t.stream[i]);
      OldListenerStaysDone(cfg, s, step, l);
    } else {
      OnlyFetchBegins(cfg, s, step, l);
      assert SameLetter(s.stream[i], t.stream[i]);
      assert Old(s, i, j, bound);
      NewListenerIsDone(cfg, s, step, l);
    }
  }

  lemma QuietStays(cfg: Settings, s: World, step: Step, j: JobId, bound: int)
    requires Quiet(s, j, bound) && bound <= |s.db.outbox| && !Reopens(s, step, j, bound)
    requires MessagesOk(cfg, Next(cfg, s, step)) && forall l :: l in s.listeners ==> ListenerOk(s, l)
    ensures Quiet(Next(cfg, s, step), j, bound)
  {
    NextGrows(cfg, s, step);
    RowsStaySeen(s, Next(cfg, s, step), j, bound);
    LettersStayDead(cfg, s, step, j, bound);
    ListenersStayDone(cfg, s, step, j, bound);
  }

  lemma QuietLink(cfg: Settings, ws: seq<World>, steps: seq<Step>, n: nat, j: JobId, bound: int)
    requires Path(cfg, ws, steps) && n < |steps| && Inv(cfg, ws[0])
    requires Quiet(ws[n], j, bound) && bound <= |ws[n].db.outbox| && !Reopens(ws[n], steps[n], j, bound)
    ensures Quiet(ws[n + 1], j, bound) && bound <= |ws[n + 1].db.outbox|
  {
    PathKeeps(cfg, ws, steps, n);
    PathKeeps(cfg, ws, steps, n + 1);
    PathGrows(cfg, ws, steps, n, n + 1);
    QuietNext(cfg, ws, steps, n, j, bound);
  }

  lemma QuietNext(cfg: Settings, ws: seq<World>, steps: seq<Step>, n: nat, j: JobId, bound: int)
    requires Path(cfg, ws, steps) && n < |steps|
    requires MessagesOk(cfg, ws[n + 1]) && forall l :: l in ws[n].listeners ==> ListenerOk(ws[n], l)
    requires Quiet(ws[n], j, bound) && bound <= |ws[n].db.outbox| && !Reopens(ws[n], steps[n], j, bound)
    ensures Quiet(ws[n + 1], j, bound)
  {
    assert Linked(cfg, ws, steps, n);
    QuietStays(cfg, ws[n], steps[n], j, bound);
  }

  ghost predicate NeverReopens(ws: seq<World>, steps: seq<Step>, a: nat, b: nat, j: JobId, bound: int)
    requires |ws| == |steps| + 1 && b <= |steps|
  {
    forall n :: a <= n < b ==> !Reopens(ws[n], steps[n], j, bound)
  }

  /** Short of a publication outside the window, whatever happens leaves the job's old life quiet. */
  lemma {:induction false} StaysQuiet(
      cfg: Settings, ws: seq<World>, steps: seq<Step>, a: nat, b: nat, j: JobId, bound: int)
    requires Path(cfg, ws, steps) && Inv(cfg, ws[0]) && a <= b < |ws| && NeverReopens(ws, steps, a, b, j, bound)
    requires Quiet(ws[a], j, bound) && bound <= |ws[a].db.outbox|
    ensures Quiet(ws[b], j, bound) && bound <= |ws[b].db.outbox|
  {
    if a < b {
      StaysQuiet(cfg, ws, steps, a, b - 1, j, bound);
      QuietLink(cfg, ws, steps, b - 1, j, bound);
    }
  }
}
