/** Values shared by every module. */
module Core {
  datatype Option<+T> = None | Some(value: T)

  function Max(a: int, b: int): int {
    if a < b then b else a
  }
}

/**
 The job lifecycle: states, events, the transition table, and the fold of an event log.

 A log entry carries, besides the event and the attempt stored in `job_events`, the fencing
 token under which the write was accepted. The token is a history variable: no step reads it.
 */
module Domain {
  import opened Core

  datatype JobState = Submitted | Queued | Running | Succeeded | Failed | DeadLetter

  datatype EventType =
    | Submitted | Enqueued | Started | Completed | Failed | Requeued | DeadLettered | Replayed

  datatype JobEvent = JobEvent(event: EventType, attempt: int, token: Option<int>)

  type Log = seq<JobEvent>

  predicate IsTerminal(state: JobState) {
    state == JobState.Succeeded || state == JobState.Failed
  }

  /** QUEUED or RUNNING: somebody still owes this job an execution. */
  predicate Active(state: JobState) {
    state == Queued || state == Running
  }

  /** The transition table; `None` stands for IllegalTransition. */
  function Apply(state: Option<JobState>, event: EventType): Option<JobState> {
    match (state, event)
    case (None, Submitted) => Some(JobState.Submitted)
    case (Some(Submitted), Enqueued) => Some(Queued)
    case (Some(Queued), Started) => Some(Running)
    case (Some(Queued), DeadLettered) => Some(DeadLetter)
    case (Some(Running), Completed) => Some(Succeeded)
    case (Some(Running), Failed) => Some(JobState.Failed)
    case (Some(Running), Requeued) => Some(Queued)
    case (Some(Running), DeadLettered) => Some(DeadLetter)
    case (Some(Running), Started) => Some(Running)
    case (Some(DeadLetter), Replayed) => Some(Queued)
    case _ => None
  }

  function LegalEvents(state: Option<JobState>): set<EventType> {
    set e: EventType | Apply(state, e).Some?
  }

  /** What a log says about its job: nothing yet, a state, or that some event was illegal. */
  datatype Standing = Absent | At(state: JobState) | Corrupt

  function Advance(standing: Standing, event: EventType): Standing {
    match standing
    case Corrupt => Corrupt
    case Absent => (match Apply(None, event) case None => Corrupt case Some(s) => At(s))
    case At(state) => (match Apply(Some(state), event) case None => Corrupt case Some(s) => At(s))
  }

  function StandingOf(log: Log): Standing {
    if log == [] then Absent
    else Advance(StandingOf(log[..|log| - 1]), log[|log| - 1].event)
  }

  lemma StandingAppend(log: Log, e: JobEvent)
    ensures StandingOf(log + [e]) == Advance(StandingOf(log), e.event)
  {
    assert (log + [e])[..|log|] == log;
  }

  datatype ReplayResult =
    | Final(state: JobState)
    | EmptyLog
    | IllegalAt(index: nat, before: Option<JobState>, event: EventType)

  /**
   `replay`: the loop that folds a log. It raises at the first illegal event and on the empty
   log, and otherwise returns the state the whole log stands at.
   */
  method Replay(log: Log) returns (r: ReplayResult)
    ensures r.Final? <==> StandingOf(log).At?
    ensures r.Final? ==> StandingOf(log) == At(r.state)
    ensures r.EmptyLog? <==> log == []
    ensures r.IllegalAt? ==>
              && r.index < |log| && r.event == log[r.index].event
              && StandingOf(log[..r.index]) == (if r.before.None? then Absent else At(r.before.value))
              && Apply(r.before, r.event).None?
              && StandingOf(log) == Corrupt
  {
    var state: Option<JobState> := None;
    for i := 0 to |log|
      invariant StandingOf(log[..i]) == (if state.None? then Absent else At(state.value))
      invariant state.None? <==> i == 0
    {
      StandingAppend(log[..i], log[i]);
      assert log[..i + 1] == log[..i] + [log[i]];
      var next := Apply(state, log[i].event);
      if next.None? {
        CorruptForever(log[..i + 1], log[i + 1..]);
        assert log == log[..i + 1] + log[i + 1..];
        return IllegalAt(i, state, log[i].event);
      }
      state := next;
    }
    assert log[..|log|] == log;
    if state.None? { return EmptyLog; }
    return Final(state.value);
  }

  lemma {:induction false} CorruptForever(log: Log, more: Log)
    requires StandingOf(log) == Corrupt
    ensures StandingOf(log + more) == Corrupt
  {
    if more == [] {
      assert log + more == log;
    } else {
      CorruptForever(log, more[..|more| - 1]);
      assert log + more == (log + more[..|more| - 1]) + [more[|more| - 1]];
      StandingAppend(log + more[..|more| - 1], more[|more| - 1]);
    }
  }

  /** Every prefix of a legal log is legal. */
  lemma PrefixLegal(log: Log, n: nat)
    requires n <= |log| && StandingOf(log) != Corrupt
    ensures StandingOf(log[..n]) != Corrupt
  {
    assert log == log[..n] + log[n..];
    if StandingOf(log[..n]) == Corrupt {
      CorruptForever(log[..n], log[n..]);
    }
  }

  /** The terminal states absorb nothing: any extension of a finished log is illegal. */
  lemma {:induction false} TerminalIsForever(log: Log, more: Log)
    requires StandingOf(log).At? && IsTerminal(StandingOf(log).state)
    requires more != []
    ensures StandingOf(log + more) == Corrupt
  {
    StandingAppend(log, more[0]);
    CorruptForever(log + [more[0]], more[1..]);
    assert log + more == (log + [more[0]]) + more[1..];
  }

  /** `legal_events`, state by state: a state accepts some event exactly when it is not terminal. */
  lemma LegalEventsOf(state: JobState)
    ensures LegalEvents(Some(state)) ==
            match state
            case Submitted => {Enqueued}
            case Queued => {Started, DeadLettered}
            case Running => {Started, Completed, EventType.Failed, Requeued, DeadLettered}
            case DeadLetter => {Replayed}
            case Succeeded => {}
            case Failed => {}
    ensures LegalEvents(Some(state)) == {} <==> IsTerminal(state)
    ensures LegalEvents(None) == {EventType.Submitted}
  {
    match state
    case Submitted => assert Enqueued in LegalEvents(Some(state));
    case Queued => assert Started in LegalEvents(Some(state));
    case Running => assert Started in LegalEvents(Some(state));
    case DeadLetter => assert Replayed in LegalEvents(Some(state));
    case Succeeded =>
    case Failed =>
  }

  function Count(log: Log, event: EventType): nat {
    if log == [] then 0
    else Count(log[..|log| - 1], event) + (if log[|log| - 1].event == event then 1 else 0)
  }

  lemma CountAppend(log: Log, e: JobEvent, event: EventType)
    ensures Count(log + [e], event) == Count(log, event) + (if e.event == event then 1 else 0)
  {
    assert (log + [e])[..|log|] == log;
  }

  function Bit(b: bool): nat { if b then 1 else 0 }

  /** The events that close an execution. */
  predicate Ends(event: EventType) {
    event == Completed || event == EventType.Failed || event == Requeued
  }

  function Endings(log: Log): nat {
    Count(log, Completed) + Count(log, EventType.Failed) + Count(log, Requeued)
  }

  predicate Shaped(log: Log, state: JobState) {
    && Count(log, DeadLettered) == Count(log, Replayed) + Bit(state == DeadLetter)
    && Count(log, Completed) == Bit(state == Succeeded)
    && Count(log, EventType.Failed) == Bit(state == JobState.Failed)
    && Endings(log) + Bit(state == Running) <= Count(log, Started)
    && Count(log, EventType.Submitted) == 1
    && Count(log, Enqueued) == Bit(state != JobState.Submitted)
  }

  lemma ShapeGrows(log: Log, state: JobState, e: JobEvent)
    requires Shaped(log, state) && Apply(Some(state), e.event).Some?
    ensures Shaped(log + [e], Apply(Some(state), e.event).value)
  {
    forall event { CountAppend(log, e, event); }
    match state
    case Submitted =>
    case Queued =>
    case Running =>
    case DeadLetter =>
  }

  lemma FirstShape(e: JobEvent)
    requires e.event == EventType.Submitted
    ensures Shaped([e], JobState.Submitted)
  {
    forall event ensures Count([e], event) == Bit(event == EventType.Submitted) {
      assert [e][..0] == [];
    }
  }

  /**
   The shape of every legal log: each quarantine is matched by a replay except a current one,
   at most one final verdict was given, and no execution is closed twice.
   */
  lemma {:induction false} LegalShape(log: Log)
    requires StandingOf(log).At?
    ensures Shaped(log, StandingOf(log).state)
  {
    var init, e := log[..|log| - 1], log[|log| - 1];
    assert log == init + [e];
    if init == [] {
      FirstShape(e);
    } else {
      NonEmptyIsPresent(init);
      LegalShape(init);
      ShapeGrows(init, StandingOf(init).state, e);
    }
  }

  lemma NonEmptyIsPresent(log: Log)
    requires log != []
    ensures StandingOf(log) != Absent
  {}

  /** The log is as long as its events are many. */
  lemma {:induction false} LengthIsCounts(log: Log)
    ensures |log| == Count(log, EventType.Submitted) + Count(log, Enqueued) + Count(log, Started)
                     + Endings(log) + Count(log, DeadLettered) + Count(log, Replayed)
  {
    if log != [] {
      LengthIsCounts(log[..|log| - 1]);
    }
  }

  /** A verdict, if there is one, is the last event of a legal log and the only verdict. */
  lemma VerdictIsLast(log: Log, i: nat)
    requires StandingOf(log) != Corrupt && i < |log|
    requires log[i].event == Completed || log[i].event == EventType.Failed
    ensures i == |log| - 1
    ensures StandingOf(log) == At(if log[i].event == Completed then Succeeded else JobState.Failed)
  {
    assert log[..i + 1] == log[..i] + [log[i]];
    StandingAppend(log[..i], log[i]);
    PrefixLegal(log, i + 1);
    assert log == log[..i + 1] + log[i + 1..];
    if i + 1 < |log| {
      TerminalIsForever(log[..i + 1], log[i + 1..]);
    }
  }
}
