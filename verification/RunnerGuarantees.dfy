/** Further guarantees of the runner's runs: parked heads, the fence, settlements, finals. */
module RunnerGuarantees {
  import opened Prelude
  import opened NativeTurns
  import opened RunnerTypes
  import opened RunnerSteps
  import opened RunnerIdentity
  import opened RunnerInvariants
  import opened RunnerRuns

  // ---- A parked head is woken --------------------------------------------------------

  /** Until a fence, a turn is open exactly while runTurn is under way; and none is while an
      input waits for its thread. */
  predicate Driven(s: State) {
    && (!s.fenced ==> (s.turn.Some? <==> HasTurn(s.pc)))
    && (s.pc.Dequeued? ==> s.turn.None?)
  }

  lemma DrainLoopParks(s: State)
    ensures ParkedOk(DrainLoop(s)) && ParkedOk(EndOfBody(s))
    ensures ParkedOk(s) ==> ParkedOk(KickDrain(s))
    ensures s.pc == Idle ==> ParkedOk(KickDrain(s))
  {}

  lemma DrainLoopDrives(s: State)
    requires Driven(s)
    ensures s.fenced || s.turn.None? ==> Driven(DrainLoop(s)) && Driven(EndOfBody(s))
    ensures Driven(KickDrain(s))
  {}

  lemma OpenTurnIsNotIdle(s: State)
    requires Driven(s) && s.turn.Some?
    ensures ParkedOk(s)
  {}

  lemma CalmDrives(s: State, s': State)
    requires Driven(s) && s.turn.Some? && (Calm(s, s') || SettledByHistory(s, s'))
    ensures Driven(s') && s'.turn.Some?
  {}

  lemma JoinDrives(s: State, rpc: SteerRpc)
    requires Driven(s) && s.turn.Some? && |s.queue| > 0
    ensures Driven(JoinGroup(s, rpc)) && JoinGroup(s, rpc).turn.Some?
  {}

  lemma RefusalDrives(s: State, refusal: Failure)
    requires Driven(s) && s.turn.Some?
    ensures Driven(OnSteerError(s, refusal)) && OnSteerError(s, refusal).turn.Some?
  {
    hide Calm, RouteHeld;
    RouteHeldSteady(CloseSteering(s));
    CalmDrives(CloseSteering(s), RouteHeld(CloseSteering(s)));
  }

  lemma SteeredDrives(s: State, steeredId: Option<Id>)
    requires Driven(s) && s.turn.Some?
    ensures Driven(OnSteerResponse(s, steeredId)) && OnSteerResponse(s, steeredId).turn.Some?
  {
    hide Calm, JoinGroup, AfterJoin;
    if SteerAccepted(s, steeredId) {
      var s1 := JoinGroup(s, s.steer.value);
      JoinDrives(s, s.steer.value);
      AfterJoinSteady(s1, s.steer.value.epoch);
      CalmDrives(s1, OnSteerResponse(s, steeredId));
    }
  }

  /** With a turn open, whatever arrives leaves it open and the drain loop in runTurn. */
  lemma OpenTurnDrives(s: State, e: Event)
    requires Identified(s) && Driven(s) && s.turn.Some? && !IsLoopEvent(e)
    ensures Driven(Step(s, e)) && Step(s, e).turn.Some?
  {
    hide Calm, Driven, Identified, SettledByHistory;
    var s' := Step(s, e);
    match e {
      case RootResponse(responseId) => OnRootResponseCalm(s, responseId); CalmDrives(s, s');
      case RootError(failure) => OnRootErrorSteady(s, failure); CalmDrives(s, s');
      case SteerResponse(steeredId) => SteeredDrives(s, steeredId);
      case SteerError(refusal) => RefusalDrives(s, refusal);
      case Notify(note) => OnNoteSteady(s, note, false); CalmDrives(s, s');
      case HistoryScanned(candidates, failed, expired) =>
        OnHistoryScannedSteady(s, candidates, failed, expired);
        CalmDrives(s, s');
    }
  }

  /** Clearing the native-busy slot with no turn open wakes a parked head. */
  lemma IdleCompletionParks(s: State)
    requires s.turn.None? && Driven(s)
    requires s.pc == Idle && |s.queue| > 0 && !s.fenced ==> s.nativeActive.None? || GateCloses(s)
    ensures var s2 := SettleState(s);
            var s3 := if |s2.queue| > 0 && s2.nativeActive.None? then KickDrain(s2) else s2;
            ParkedOk(s3) && Driven(s3)
  {
    var s2 := SettleState(s);
    assert s2 == s.(idleTimer := s2.idleTimer, published := s2.published);
    DrainLoopParks(s2);
    DrainLoopDrives(s2);
  }

  lemma IdleNoteParks(s: State, note: Note)
    requires s.turn.None? && ParkedOk(s) && Driven(s)
    ensures ParkedOk(OnNote(s, note, false)) && Driven(OnNote(s, note, false))
  {
    hide OnStartedFor, OnGroupCompleted, OnSingleCompleted, InGroupMode, KickDrain, SettleState;
    if note.Completed? {
      IdleCompletionParks(ClearNative(s, NoteId(note.turnParam, note.rec)));
    }
  }

  /** A stray steer carries an authorized input, which is no parked head. */
  lemma StraySteerParks(s: State, e: Event)
    requires s.turn.None? && Identified(s) && ParkedOk(s) && Driven(s) && (e.SteerResponse? || e.SteerError?)
    ensures ParkedOk(Step(s, e)) && Driven(Step(s, e))
  {
    if e.SteerResponse? && SteerAccepted(s, e.steeredId) {
      AfterJoinNoTurn(JoinGroup(s, s.steer.value), s.steer.value.epoch);
    }
  }

  lemma TurnlessParks(s: State, e: Event)
    requires s.turn.None? && Identified(s) && ParkedOk(s) && Driven(s) && !IsLoopEvent(e)
    ensures ParkedOk(Step(s, e)) && Driven(Step(s, e))
  {
    match e {
      case Notify(note) => IdleNoteParks(s, note);
      case SteerResponse(_) => StraySteerParks(s, e);
      case SteerError(_) => StraySteerParks(s, e);
      case _ =>
    }
  }

  lemma ReceiveParks(s: State, s1: State)
    requires Driven(s) && s1.pc == s.pc && s1.turn == s.turn && s1.fenced == s.fenced
    ensures ParkedOk(KickDrain(s1)) && Driven(KickDrain(s1))
  {
    DrainLoopParks(s1);
    DrainLoopDrives(s1);
  }

  lemma AnswerFailureParks(s: State, input: Input, message: string)
    ensures ParkedOk(AnswerFailure(s, input, message)) && Driven(AnswerFailure(s, input, message))
  {
    DrainLoopParks(FailureFinal(s, input, message));
    DrainLoopDrives(FailureFinal(s, input, message));
  }

  lemma DrainResumedParks(s: State)
    requires ParkedOk(s) && Driven(s)
    ensures ParkedOk(OnDrainResumed(s)) && Driven(OnDrainResumed(s))
  {
    if s.pc == Returned {
      DrainLoopParks(s);
      DrainLoopDrives(s);
    } else if s.pc.Threw? && s.turn.Some? && |s.turn.value.accepted| > 0 {
      AnswerFailureParks(s, s.turn.value.accepted[0].input, s.pc.message);
    }
  }

  lemma LoopEventParks(s: State, e: Event)
    requires ParkedOk(s) && Driven(s) && IsLoopEvent(e)
    ensures ParkedOk(Step(s, e)) && Driven(Step(s, e))
  {
    match e {
      case Framed(content, sidecar, replyId, steerable) =>
        ReceiveParks(s, TryAdmitSteer(Receive(s, content, sidecar, replyId, steerable)));
      case PlainLine(line) => ReceiveParks(s, Receive(s, line, None, None, false));
      case ThreadFailed(message) => if s.pc.Dequeued? { AnswerFailureParks(s, s.pc.input, message); }
      case TurnDone => if s.turn.Some? { EmitGroupFrame(s, s.turn.value, 0); }
      case DrainResumed => DrainResumedParks(s);
      case _ =>
    }
  }

  lemma StepParks(s: State, e: Event)
    requires Identified(s) && ParkedOk(s) && Driven(s)
    ensures ParkedOk(Step(s, e)) && Driven(Step(s, e))
  {
    if IsLoopEvent(e) {
      LoopEventParks(s, e);
    } else if s.turn.None? {
      TurnlessParks(s, e);
    } else {
      OpenTurnDrives(s, e);
      OpenTurnIsNotIdle(Step(s, e));
    }
  }

  lemma {:induction false} RunParks(s: State, events: seq<Event>)
    requires Identified(s) && ParkedOk(s) && Driven(s)
    ensures ParkedOk(Run(s, events))
    decreases |events|
  {
    if events != [] {
      StepKeepsIdentity(s, events[0]);
      StepParks(s, events[0]);
      RunParks(Step(s, events[0]), events[1..]);
    }
  }

  /** A parked head never sleeps for nothing: while inputs wait and no drain is running,
      an unfenced runner has a native turn open that its head may not enter. This holds on
      every run, whatever settlements overlapped. */
  lemma ParkedHeadIsJustified(cfg: Config, events: seq<Event>)
    ensures var s := Run(InitialState(cfg), events);
            s.pc == Idle && |s.queue| > 0 && !s.fenced ==> s.nativeActive.Some? && !s.queue[0].steerable
  {
    hide Run;
    InitialSound(cfg);
    RunParks(InitialState(cfg), events);
  }

  // ---- Overlaps are on record --------------------------------------------------------------

  /** An overlap, once it happened, stays on record. */
  lemma StepKeepsOverlap(s: State, e: Event)
    requires Identified(s) && s.overlapped
    ensures Step(s, e).overlapped
  {
    if IsLoopEvent(e) {
      LoopEventFrame(s, e);
    } else {
      match e {
        case RootResponse(responseId) => OnRootResponseCalm(s, responseId);
        case RootError(failure) => OnRootErrorSteady(s, failure);
        case SteerResponse(steeredId) =>
          if SteerAccepted(s, steeredId) { AfterJoinSteady(JoinGroup(s, s.steer.value), s.steer.value.epoch); }
        case SteerError(refusal) => SteerErrorKeepsOverlap(s, refusal);
        case Notify(note) => OnNoteSteady(s, note, false);
        case HistoryScanned(candidates, failed, expired) => OnHistoryScannedSteady(s, candidates, failed, expired);
      }
    }
  }

  lemma SteerErrorKeepsOverlap(s: State, refusal: Failure)
    requires s.overlapped
    ensures OnSteerError(s, refusal).overlapped
  {
    if s.turn.Some? { RouteHeldSteady(CloseSteering(s)); }
  }

  lemma {:induction false} RunKeepsOverlap(s: State, events: seq<Event>)
    requires Identified(s) && s.overlapped
    ensures Run(s, events).overlapped
    decreases |events|
  {
    if events != [] {
      StepKeepsOverlap(s, events[0]);
      StepKeepsIdentity(s, events[0]);
      RunKeepsOverlap(Step(s, events[0]), events[1..]);
    }
  }

  // ---- A group grows by accepted steers only ---------------------------------------------

  /** An accepted follow-up of this turn. */
  predicate Joins(s: State, e: Event)
    requires s.turn.Some?
  {
    e.SteerResponse? && SteerAccepted(s, e.steeredId) && s.steer.value.epoch == s.turn.value.epoch
  }

  lemma LoopEventKeepsGroup(s: State, e: Event)
    requires Sound(s) && Identified(s) && !s.overlapped && s.turn.Some? && IsLoopEvent(e)
    ensures var s' := Step(s, e); s'.turn.Some? ==> s'.turn == s.turn
  {
    LoopEventFrame(s, e);
  }

  lemma SteerErrorKeepsGroup(s: State, refusal: Failure)
    requires s.turn.Some?
    ensures var s' := OnSteerError(s, refusal); s'.turn.Some? && s'.turn.value.accepted == s.turn.value.accepted
  {
    RouteHeldSteady(CloseSteering(s));
  }

  lemma SteerResponseGrowsGroup(s: State, steeredId: Option<Id>)
    requires s.turn.Some?
    ensures var s' := OnSteerResponse(s, steeredId);
            && s'.turn.Some?
            && s'.turn.value.accepted == s.turn.value.accepted
                 + if Joins(s, SteerResponse(steeredId)) then [s.steer.value.dispatch] else []
  {
    if SteerAccepted(s, steeredId) {
      JoinGrowsGroup(s, s.steer.value);
      AfterJoinSteady(JoinGroup(s, s.steer.value), s.steer.value.epoch);
    } else if s.steer.Some? {
      FenceSteerKeepsGroup(s, s.steer.value.epoch);
    }
  }

  lemma JoinGrowsGroup(s: State, rpc: SteerRpc)
    requires s.turn.Some? && |s.queue| > 0
    ensures var s' := JoinGroup(s, rpc);
            && s'.turn.Some?
            && s'.turn.value.accepted
               == s.turn.value.accepted + if rpc.epoch == s.turn.value.epoch then [rpc.dispatch] else []
  {}

  lemma FenceSteerKeepsGroup(s: State, epoch: nat)
    requires s.turn.Some?
    ensures var s' := FenceSteer(s.(steer := None), epoch);
            s'.turn.Some? && s'.turn.value.accepted == s.turn.value.accepted
  {}

  /** A member joins a group only by a steer response that echoes the canonical id it was sent
      to while its input still heads the queue; it is then exactly that input, at the end. */
  lemma GroupGrowsExactly(s: State, e: Event)
    requires Sound(s) && Identified(s) && !s.overlapped && s.turn.Some?
    requires Step(s, e).turn.Some?
    ensures Step(s, e).turn.value.accepted == s.turn.value.accepted + if Joins(s, e) then [s.steer.value.dispatch] else []
  {
    if IsLoopEvent(e) {
      LoopEventKeepsGroup(s, e);
    } else {
      match e {
        case RootResponse(responseId) => OnRootResponseCalm(s, responseId);
        case RootError(failure) => OnRootErrorSteady(s, failure);
        case SteerResponse(steeredId) => SteerResponseGrowsGroup(s, steeredId);
        case SteerError(refusal) => SteerErrorKeepsGroup(s, refusal);
        case Notify(note) => OnNoteSteady(s, note, false);
        case HistoryScanned(candidates, failed, expired) => OnHistoryScannedSteady(s, candidates, failed, expired);
      }
    }
  }

  /** A turn that begins takes over exactly the input in hand, under an epoch of its own; it
      enters the native turn open at that moment, and its own response is a barrier only if
      there is none; and until a proof of its native id arrives, no head may be steered into it. */
  lemma FreshTurnIsClosed(s: State, head: Input)
    requires Sound(s) && Identified(s) && !s.overlapped && s.pc.Dequeued?
    ensures var s' := Step(s, ThreadReady);
            && s'.turn.Some?
            && var t := s'.turn.value;
            && Sound(s') && Identified(s') && !s'.overlapped
            && InHand(s') == [s.pc.input] && s'.queue == s.queue
            && t.epoch > s.epochs
            && t.rpc.expected == s.nativeActive && (t.startPending <==> s.nativeActive.None?)
            && !CanSteer(s', t, head) && !InGroupMode(s', t)
  {
    BeginTurnSound(s);
    BeginTurnKeepsIdentity(s, s.pc.input);
    MembersAt(Step(s, ThreadReady).turn.value.accepted);
  }

  // ---- The failure final ------------------------------------------------------------------

  /** The drain loop's catch clause runs: the thread failed, or runTurn threw. */
  predicate Catches(s: State, e: Event) {
    (s.pc.Dequeued? && e.ThreadFailed?) || (s.pc.Threw? && e.DrainResumed?)
  }

  lemma JoinAnswersNothing(s: State, rpc: SteerRpc)
    requires |s.queue| > 0
    ensures JoinGroup(s, rpc).finals == s.finals
  {}

  lemma SteerResponseAnswersNothing(s: State, steeredId: Option<Id>)
    ensures OnSteerResponse(s, steeredId).finals == s.finals
  {
    hide JoinGroup, AfterJoin;
    if SteerAccepted(s, steeredId) {
      JoinAnswersNothing(s, s.steer.value);
      AfterJoinSteady(JoinGroup(s, s.steer.value), s.steer.value.epoch);
    }
  }

  lemma SteerErrorAnswersNothing(s: State, refusal: Failure)
    ensures OnSteerError(s, refusal).finals == s.finals
  {
    hide RouteHeld;
    if s.turn.Some? { RouteHeldSteady(CloseSteering(s)); }
  }

  lemma CalmAnswersNothing(s: State, s': State)
    requires Calm(s, s') || SettledByHistory(s, s')
    ensures s'.finals == s.finals
  {}

  lemma LoopFinalsComeFrom(s: State, e: Event)
    requires IsLoopEvent(e) && Step(s, e).finals != s.finals
    ensures e.TurnDone? || Catches(s, e)
  {
    hide KickDrain, EndOfBody, AnswerFailure, TryAdmitSteer, SettleState;
    match e {
      case Framed(content, sidecar, replyId, steerable) =>
        DrainAnswersNothing(Receive(s, content, sidecar, replyId, steerable));
      case PlainLine(line) => DrainAnswersNothing(Receive(s, line, None, None, false));
      case _ => DrainAnswersNothing(s);
    }
  }

  lemma DrainAnswersNothing(s: State)
    ensures KickDrain(s).finals == EndOfBody(s).finals == SettleState(s).finals == s.finals
    ensures KickDrain(TryAdmitSteer(s)).finals == s.finals
  {
    hide Admits, GateCloses;
    assert TryAdmitSteer(s).finals == s.finals;
  }

  /** Finals come from a finished turn or from the catch clause, and from nowhere else. */
  lemma FinalsComeFrom(s: State, e: Event)
    requires Identified(s) && Step(s, e).finals != s.finals
    ensures e.TurnDone? || Catches(s, e)
  {
    if IsLoopEvent(e) {
      LoopFinalsComeFrom(s, e);
    } else {
      OthersAnswerNothing(s, e);
    }
  }

  lemma OthersAnswerNothing(s: State, e: Event)
    requires Identified(s) && !IsLoopEvent(e)
    ensures Step(s, e).finals == s.finals
  {
    hide Calm, Identified, SettledByHistory;
    var s' := Step(s, e);
    match e {
      case RootResponse(responseId) => OnRootResponseCalm(s, responseId); CalmAnswersNothing(s, s');
      case RootError(failure) => OnRootErrorSteady(s, failure); CalmAnswersNothing(s, s');
      case SteerResponse(steeredId) => SteerResponseAnswersNothing(s, steeredId);
      case SteerError(refusal) => SteerErrorAnswersNothing(s, refusal);
      case Notify(note) => OnNoteSteady(s, note, false); CalmAnswersNothing(s, s');
      case HistoryScanned(candidates, failed, expired) =>
        OnHistoryScannedSteady(s, candidates, failed, expired);
        CalmAnswersNothing(s, s');
    }
  }

  /** The one input the catch clause holds. */
  lemma HeldByCatch(s: State, e: Event)
    requires Live(s) && !s.fenced && Catches(s, e)
    ensures |InHand(s)| == 1
    ensures Step(s, e) == AnswerFailure(s, InHand(s)[0], if e.ThreadFailed? then e.message else s.pc.message)
  {
    hide AnswerFailure;
    if s.pc.Threw? { MembersAt(s.turn.value.accepted); }
  }

  lemma FailureIsAnswered(s: State, input: Input, message: string)
    requires !s.fenced
    ensures var s' := AnswerFailure(s, input, message);
            var n := |s.finals|;
            && |s'.finals| == n + 1 && s'.finals[..n] == s.finals
            && s'.finals[n].input == input && s'.finals[n].content == RunnerError(message) && !s'.finals[n].superseded
  {
    var s1 := FailureFinal(s, input, message);
    assert EndOfBody(s1).finals == s1.finals;
  }

  /** On every run: when the catch clause answers, what is in hand is one input, not yet begun
      or a group that is still its root, and the failure final answers exactly that input. */
  lemma FailureFinalAnswersAll(cfg: Config, events: seq<Event>, e: Event)
    requires var s := Run(InitialState(cfg), events); !s.overlapped && !s.fenced && Catches(s, e)
    ensures var s := Run(InitialState(cfg), events);
            var s' := Step(s, e);
            var n := |s.finals|;
            && |InHand(s)| == 1
            && |s'.finals| == n + 1 && s'.finals[..n] == s.finals
            && s'.finals[n].input == InHand(s)[0] && s'.finals[n].content.RunnerError? && !s'.finals[n].superseded
  {
    hide Run, Step, AnswerFailure;
    InitialSound(cfg);
    RunFrom(InitialState(cfg), events);
    var s := Run(InitialState(cfg), events);
    HeldByCatch(s, e);
    FailureIsAnswered(s, InHand(s)[0], if e.ThreadFailed? then e.message else s.pc.message);
  }

  // ---- The fence is absorbing ------------------------------------------------------------

  /** The one thing a fenced runner still does to its queue: an accepted steer response
      takes the head it carried, although no group will answer it. */
  predicate TakesSteeredHead(s: State, e: Event) {
    e.SteerResponse? && SteerAccepted(s, e.steeredId)
  }

  /** After a fence: nothing answered, nothing started, no steer sent, no idle announced. */
  predicate Silent(s: State, s': State) {
    && s'.fenced
    && s'.finals == s.finals
    && s'.epochs == s.epochs
    && !s'.pc.Dequeued?
    && (s'.steer == s.steer || s'.steer.None?)
    && IdleAnnouncements(s'.published) == IdleAnnouncements(s.published)
    && s'.overlapped == s.overlapped
  }

  /** What a fenced step leaves in the queue. */
  function FencedQueue(s: State, e: Event): seq<Input> {
    if TakesSteeredHead(s, e) then s.queue[1..]
    else if e.Framed? then Receive(s, e.content, e.sidecar, e.replyId, e.steerable).queue
    else if e.PlainLine? then Receive(s, e.line, None, None, false).queue
    else s.queue
  }

  lemma FencedJoin(s: State)
    requires s.fenced && Dead(s) && s.steer.Some? && |s.queue| > 0
    ensures var s1 := JoinGroup(s, s.steer.value);
            Silent(s, s1) && s1.queue == s.queue[1..] && s1.fenced && s1.steer.None? && !s1.pc.Dequeued?
  {}

  lemma FencedSteerResponse(s: State, steeredId: Option<Id>)
    requires s.fenced && Dead(s)
    ensures var s' := OnSteerResponse(s, steeredId);
            Silent(s, s') && s'.queue == if SteerAccepted(s, steeredId) then s.queue[1..] else s.queue
  {
    hide JoinGroup, AfterJoin, Identified;
    if SteerAccepted(s, steeredId) {
      FencedJoin(s);
      AfterJoinSteady(JoinGroup(s, s.steer.value), s.steer.value.epoch);
    }
  }

  lemma FencedSteerError(s: State, refusal: Failure)
    requires s.fenced && Dead(s)
    ensures Silent(s, OnSteerError(s, refusal)) && OnSteerError(s, refusal).queue == s.queue
  {
    if s.turn.Some? { RouteHeldSteady(CloseSteering(s)); }
  }

  lemma FencedDrain(s: State)
    requires s.fenced && Dead(s)
    ensures Silent(s, OnTurnDone(s)) && OnTurnDone(s).queue == s.queue
    ensures Silent(s, OnDrainResumed(s)) && OnDrainResumed(s).queue == s.queue
    ensures Silent(s, FireIdleTimer(s)) && FireIdleTimer(s).queue == s.queue
  {}

  lemma FencedReceive(s: State, content: string, sidecar: Option<Sidecar>, replyId: Option<Id>, steerable: bool)
    requires s.fenced && Dead(s)
    ensures var s1 := Receive(s, content, sidecar, replyId, steerable);
            && Silent(s, KickDrain(TryAdmitSteer(s1))) && KickDrain(TryAdmitSteer(s1)).queue == s1.queue
            && Silent(s, KickDrain(s1)) && KickDrain(s1).queue == s1.queue
  {}

  /** Every step after a fence is silent, and its effect on the queue is exact. */
  lemma FencedStep(s: State, e: Event)
    requires s.fenced && Dead(s) && Identified(s)
    ensures Silent(s, Step(s, e))
    ensures Step(s, e).queue == FencedQueue(s, e)
  {
    match e {
      case Framed(content, sidecar, replyId, steerable) => FencedReceive(s, content, sidecar, replyId, steerable);
      case PlainLine(line) => FencedReceive(s, line, None, None, false);
      case ThreadReady =>
      case ThreadFailed(message) =>
      case RootResponse(responseId) => OnRootResponseCalm(s, responseId);
      case RootError(failure) => OnRootErrorSteady(s, failure);
      case SteerResponse(steeredId) => FencedSteerResponse(s, steeredId);
      case SteerError(refusal) => FencedSteerError(s, refusal);
      case Notify(note) => OnNoteSteady(s, note, false);
      case HistoryScanned(candidates, failed, expired) => OnHistoryScannedSteady(s, candidates, failed, expired);
      case TurnDone => FencedDrain(s);
      case DrainResumed => FencedDrain(s);
      case IdleTimerFired => FencedDrain(s);
      case ControlReaccepted =>
    }
  }

  lemma {:induction false} FencedRun(s: State, events: seq<Event>)
    requires s.fenced && Sound(s) && !s.overlapped && Identified(s)
    ensures Silent(s, Run(s, events))
    decreases |events|
  {
    if events != [] {
      FencedStep(s, events[0]);
      StepSound(s, events[0]);
      StepKeepsIdentity(s, events[0]);
      FencedRun(Step(s, events[0]), events[1..]);
    }
  }

  lemma {:induction false} RunSplit(s: State, before: seq<Event>, after: seq<Event>)
    ensures Run(s, before + after) == Run(Run(s, before), after)
    decreases |before|
  {
    if before == [] {
      assert before + after == after;
    } else {
      assert (before + after)[1..] == before[1..] + after;
      RunSplit(Step(s, before[0]), before[1..], after);
    }
  }

  /** The fence is absorbing: whatever follows it, no final is emitted, no turn started, no
      steer sent and no idle state announced; the generation stays fenced. */
  lemma FenceIsAbsorbing(cfg: Config, before: seq<Event>, after: seq<Event>)
    requires var s := Run(InitialState(cfg), before); s.fenced && !s.overlapped
    ensures Silent(Run(InitialState(cfg), before), Run(InitialState(cfg), before + after))
  {
    hide Run;
    InitialSound(cfg);
    RunFrom(InitialState(cfg), before);
    RunSplit(InitialState(cfg), before, after);
    FencedRun(Run(InitialState(cfg), before), after);
  }
}
