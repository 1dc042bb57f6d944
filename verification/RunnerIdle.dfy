/** When the runner announces itself idle: at rest it has done so, or its settle timer is set and
    will, unless a turn/started without an id overtakes the announcement. */
module RunnerIdle {
  import opened Prelude
  import opened NativeTurns
  import opened RunnerTypes
  import opened RunnerSteps
  import opened RunnerIdentity
  import opened RunnerInvariants
  import opened RunnerRuns
  import opened RunnerGuarantees

  /** Nothing runs, nothing waits and no native turn is open. */
  predicate AtRest(s: State) {
    s.pc == Idle && s.queue == [] && s.nativeActive.None? && !s.fenced
  }

  predicate LastSaidIdle(s: State) {
    s.published != [] && !s.published[|s.published| - 1]
  }

  /** The idle state is announced, or the settle timer that announces it is set. */
  predicate Announced(s: State) {
    AtRest(s) ==> s.idleTimer || LastSaidIdle(s)
  }

  /** A turn/started that names no native turn, while the runner rests. */
  predicate NamelessStart(s: State, e: Event) {
    AtRest(s) && e.Notify? && e.note.Started? && NoteId(e.note.turnParam, e.note.rec).None?
  }

  lemma KickAnnounces(s: State)
    requires Announced(s)
    ensures Announced(KickDrain(s)) && Announced(SettleState(s)) && Announced(KickDrain(SettleState(s)))
  {}

  lemma BusyAnnounces(s: State)
    requires !AtRest(s)
    ensures Announced(PublishBusy(s))
  {}

  /** The end of the drain loop's body sets the timer whenever it comes to rest. */
  lemma EndOfBodyAnnounces(s: State)
    ensures Announced(EndOfBody(s))
  {}

  lemma SettledAnnounces(s: State)
    ensures Announced(SettleState(s)) && Announced(KickDrain(SettleState(s)))
  {}

  lemma FailureAnnounces(s: State, input: Input, message: string)
    ensures Announced(AnswerFailure(s, input, message))
  {
    hide EndOfBody, Announced;
    if s.fenced {
      FencedIsNoRest(s.(turn := None, pc := Idle));
    } else {
      EndOfBodyAnnounces(FailureFinal(s, input, message));
    }
  }

  lemma FencedIsNoRest(s: State)
    requires s.fenced
    ensures Announced(s)
  {}

  lemma TimerAnnounces(s: State)
    requires Announced(s)
    ensures Announced(FireIdleTimer(s))
    ensures AtRest(s) ==> LastSaidIdle(FireIdleTimer(s))
  {}

  lemma LoopAnnounces(s: State, e: Event)
    requires Driven(s) && Announced(s) && IsLoopEvent(e)
    ensures Announced(Step(s, e))
  {
    hide TryAdmitSteer, KickDrain, EndOfBody, AnswerFailure, Finalize;
    match e {
      case Framed(content, sidecar, replyId, steerable) =>
        ReceivedIsNoRest(s, content, sidecar, replyId, steerable);
        KickAnnounces(TryAdmitSteer(Receive(s, content, sidecar, replyId, steerable)));
      case PlainLine(line) =>
        ReceivedIsNoRest(s, line, None, None, false);
        KickAnnounces(Receive(s, line, None, None, false));
      case ThreadFailed(message) => if s.pc.Dequeued? { FailureAnnounces(s, s.pc.input, message); }
      case DrainResumed =>
        EndOfBodyAnnounces(s);
        if s.pc.Threw? && s.turn.Some? && |s.turn.value.accepted| > 0 {
          FailureAnnounces(s, s.turn.value.accepted[0].input, s.pc.message);
        }
      case IdleTimerFired => TimerAnnounces(s);
      case ControlReaccepted => SettledAnnounces(s);
      case _ =>
    }
  }

  lemma ReceivedIsNoRest(s: State, content: string, sidecar: Option<Sidecar>, replyId: Option<Id>, steerable: bool)
    ensures var s1 := Receive(s, content, sidecar, replyId, steerable); Announced(s1) && Announced(TryAdmitSteer(s1))
  {
    hide Admits;
  }

  // ---- With no turn open ---------------------------------------------------------------------

  lemma IdleStartAnnounces(s: State, turnParam: Option<Id>, rec: NativeTurn)
    requires s.turn.None? && Announced(s)
    ensures Announced(OnStarted(s, turnParam, rec, false)) <==> !NamelessStart(s, Notify(Started(turnParam, rec)))
  {
    hide OnStartedFor;
    var id := NoteId(turnParam, rec);
    if id.Some? {
      BusyAnnounces(s.(nativeActive := id));
    } else if AtRest(s) {
      NamelessSilences(s);
    } else {
      BusyAnnounces(s);
    }
  }

  /** A start without an id takes the announcement back, and nothing sets the timer again. */
  lemma NamelessSilences(s: State)
    requires AtRest(s)
    ensures AtRest(PublishBusy(s)) && !Announced(PublishBusy(s))
  {}

  lemma IdleCompletionAnnounces(s: State, turnParam: Option<Id>, rec: NativeTurn)
    requires s.turn.None?
    ensures Announced(OnCompleted(s, turnParam, rec))
  {
    hide OnGroupCompleted, OnSingleCompleted, InGroupMode, SettleState, KickDrain, Announced;
    SettledAnnounces(ClearNative(s, NoteId(turnParam, rec)));
  }

  lemma TurnlessAnnounces(s: State, e: Event)
    requires s.turn.None? && s.steer.None? && Announced(s) && !IsLoopEvent(e)
    ensures Announced(Step(s, e)) <==> !NamelessStart(s, e)
  {
    hide OnStarted, OnCompleted, Announced;
    match e {
      case Notify(Started(turnParam, rec)) => IdleStartAnnounces(s, turnParam, rec);
      case Notify(Completed(turnParam, rec)) => IdleCompletionAnnounces(s, turnParam, rec);
      case Notify(TokenUsage(turnParam, reading)) => UsageAnnounces(s, turnParam, reading);
      case _ =>
    }
  }

  lemma UsageAnnounces(s: State, turnParam: Option<Id>, reading: Option<nat>)
    requires Announced(s)
    ensures Announced(OnTokenUsage(s, turnParam, reading))
  {}

  lemma OpenTurnIsNoRest(s: State)
    requires Driven(s) && s.turn.Some?
    ensures !AtRest(s) && Announced(s)
  {}

  lemma SteersBelong(s: State)
    requires Sound(s) && !s.overlapped && !s.fenced && s.turn.None?
    ensures s.steer.None?
  {}

  lemma FencedStays(s: State, e: Event)
    requires Identified(s) && Sound(s) && !s.overlapped && s.fenced
    ensures Announced(Step(s, e)) && !NamelessStart(s, e)
  {
    FencedStep(s, e);
    FencedIsNoRest(Step(s, e));
  }

  /** On every step without an overlap, exactly: at rest the idle state stays announced, or about to
      be, unless the step is a turn/started without an id. */
  lemma StepAnnouncesExactly(s: State, e: Event)
    requires Identified(s) && Sound(s) && !s.overlapped && Driven(s) && Announced(s)
    ensures Announced(Step(s, e)) <==> !NamelessStart(s, e)
  {
    hide Identified, Sound, Driven, Announced, Step;
    if s.fenced {
      FencedStays(s, e);
    } else if IsLoopEvent(e) {
      LoopAnnounces(s, e);
    } else if s.turn.None? {
      SteersBelong(s);
      TurnlessAnnounces(s, e);
    } else {
      OpenTurnDrives(s, e);
      OpenTurnIsNoRest(s);
      OpenTurnIsNoRest(Step(s, e));
    }
  }

  predicate NoNamelessStarts(s: State, events: seq<Event>)
    decreases |events|
  {
    events == [] || (!NamelessStart(s, events[0]) && NoNamelessStarts(Step(s, events[0]), events[1..]))
  }

  lemma {:induction false} RunAnnounces(s: State, events: seq<Event>)
    requires Identified(s) && Sound(s) && Driven(s) && ParkedOk(s) && Announced(s)
    requires NoNamelessStarts(s, events) && !Run(s, events).overlapped
    ensures Announced(Run(s, events))
    decreases |events|
  {
    hide Identified, Sound, Driven, Announced, ParkedOk, Step, NamelessStart;
    if events != [] {
      if s.overlapped { RunKeepsOverlap(s, events); }
      StepSound(s, events[0]);
      StepKeepsIdentity(s, events[0]);
      StepParks(s, events[0]);
      StepAnnouncesExactly(s, events[0]);
      RunAnnounces(Step(s, events[0]), events[1..]);
    }
  }

  /** On every such run: whenever the runner is at rest, it has announced itself idle, or its settle
      timer is set and the firing announces it. */
  lemma RestIsAnnounced(cfg: Config, events: seq<Event>)
    requires NoNamelessStarts(InitialState(cfg), events)
    requires var s := Run(InitialState(cfg), events); !s.overlapped && AtRest(s)
    ensures var s := Run(InitialState(cfg), events);
            && (s.idleTimer || LastSaidIdle(s))
            && LastSaidIdle(Step(s, IdleTimerFired))
  {
    hide Run, NoNamelessStarts, Identified, Sound;
    InitialSound(cfg);
    RunAnnounces(InitialState(cfg), events);
    TimerAnnounces(Run(InitialState(cfg), events));
  }

  const NAMELESS := Notify(Started(None, NativeTurn(None, false, false, [], None)))

  /** A runner that has never done anything is reported busy after a turn/started without an id, and
      firing the timer changes nothing. */
  lemma NamelessStartLeavesBusy(cfg: Config)
    ensures var s := Step(InitialState(cfg), NAMELESS);
            && AtRest(s) && s.published == [false, true] && !s.idleTimer && Step(s, IdleTimerFired) == s
  {}
}
