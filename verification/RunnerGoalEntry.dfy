/** Who may enter a native turn that the app-server started on its own (a Goal turn).

    The drain loop's gate lets only explicitly steerable inputs through while a native turn
    is open. The gate is tested when the head is dequeued, but runTurn reads the native-busy
    slot again after its await of the thread. */
module RunnerGoalEntry {
  import opened Prelude
  import opened NativeTurns
  import opened RunnerTypes
  import opened RunnerSteps
  import opened RunnerIdentity
  import opened RunnerInvariants
  import opened RunnerRuns
  import opened RunnerGuarantees

  // ---- Who enters, exactly ---------------------------------------------------------------

  /** The active turn is a Goal turn that an unauthorized root was steered into. */
  predicate Trespassed(s: State) {
    s.turn.Some? && s.turn.value.rpc.expected.Some? && !RootSteerable(s.turn.value)
  }

  /** The thread is ready for an unauthorized input while a native turn is open. */
  predicate SlipsIn(s: State, e: Event) {
    e.ThreadReady? && s.pc.Dequeued? && s.nativeActive.Some? && !s.pc.input.steerable
  }

  lemma CalmKeepsRoot(s: State, s': State)
    requires s.turn.Some? && !Trespassed(s) && (Calm(s, s') || SettledByHistory(s, s'))
    ensures !Trespassed(s')
  {}

  lemma JoinKeepsRoot(s: State, rpc: SteerRpc)
    requires |s.queue| > 0 && s.turn.Some? && |s.turn.value.accepted| >= 1
    ensures JoinGroup(s, rpc).turn.Some? && Trespassed(JoinGroup(s, rpc)) == Trespassed(s)
  {}

  lemma RefusalKeepsRoot(s: State, refusal: Failure)
    requires !Trespassed(s)
    ensures !Trespassed(OnSteerError(s, refusal))
  {
    hide Calm;
    if s.turn.Some? {
      RouteHeldSteady(CloseSteering(s));
      CalmKeepsRoot(CloseSteering(s), RouteHeld(CloseSteering(s)));
    }
  }

  lemma SteeredKeepsRoot(s: State, steeredId: Option<Id>)
    requires Identified(s) && !Trespassed(s)
    ensures !Trespassed(OnSteerResponse(s, steeredId))
  {
    hide Calm, JoinGroup, AfterJoin;
    if SteerAccepted(s, steeredId) {
      var s1 := JoinGroup(s, s.steer.value);
      AfterJoinSteady(s1, s.steer.value.epoch);
      if s.turn.None? {
        JoinGroupKeepsIdentity(s, s.steer.value);
        AfterJoinNoTurn(s1, s.steer.value.epoch);
      } else {
        JoinKeepsRoot(s, s.steer.value);
        CalmKeepsRoot(s1, OnSteerResponse(s, steeredId));
      }
    }
  }

  lemma StepKeepsRoot(s: State, e: Event)
    requires Identified(s) && !Trespassed(s) && !IsLoopEvent(e)
    ensures !Trespassed(Step(s, e))
  {
    var s' := Step(s, e);
    match e {
      case RootResponse(responseId) => OnRootResponseCalm(s, responseId);
      case RootError(failure) => OnRootErrorSteady(s, failure);
      case SteerResponse(steeredId) => SteeredKeepsRoot(s, steeredId);
      case SteerError(refusal) => RefusalKeepsRoot(s, refusal);
      case Notify(note) => OnNoteSteady(s, note, false);
      case HistoryScanned(candidates, failed, expired) => OnHistoryScannedSteady(s, candidates, failed, expired);
    }
    if s.turn.Some? && !e.SteerResponse? && !e.SteerError? { CalmKeepsRoot(s, s'); }
  }

  lemma StepTrespassesExactly(s: State, e: Event)
    requires Identified(s) && !Trespassed(s)
    ensures Trespassed(Step(s, e)) <==> SlipsIn(s, e)
  {
    if IsLoopEvent(e) {
      LoopEventFrame(s, e);
    } else {
      StepKeepsRoot(s, e);
    }
  }

  predicate NeverTrespassed(s: State, events: seq<Event>)
    decreases |events|
  {
    !Trespassed(s) && (events == [] || NeverTrespassed(Step(s, events[0]), events[1..]))
  }

  predicate NoneSlipsIn(s: State, events: seq<Event>)
    decreases |events|
  {
    events == [] || (!SlipsIn(s, events[0]) && NoneSlipsIn(Step(s, events[0]), events[1..]))
  }

  lemma {:induction false} RunTrespassesExactly(s: State, events: seq<Event>)
    requires Identified(s) && !Trespassed(s)
    ensures NeverTrespassed(s, events) <==> NoneSlipsIn(s, events)
    decreases |events|
  {
    if events != [] {
      StepKeepsIdentity(s, events[0]);
      StepTrespassesExactly(s, events[0]);
      if !SlipsIn(s, events[0]) { RunTrespassesExactly(Step(s, events[0]), events[1..]); }
    }
  }

  /** On every run: only authorized inputs ever enter a Goal turn exactly if no native turn is
      open at a moment when the thread becomes ready for an unauthorized input. */
  lemma GoalEntryIsExact(cfg: Config, events: seq<Event>)
    ensures NeverTrespassed(InitialState(cfg), events) <==> NoneSlipsIn(InitialState(cfg), events)
  {
    InitialSound(cfg);
    RunTrespassesExactly(InitialState(cfg), events);
  }

  // ---- What the gate does ----------------------------------------------------------------

  /** The gate: an input that waits for its thread while a native turn is open is authorized. */
  predicate GateOk(s: State) {
    s.pc.Dequeued? && s.nativeActive.Some? ==> s.pc.input.steerable
  }

  /** A native turn starts while an input waits between the gate and the snapshot. */
  predicate InGap(s: State, e: Event) {
    s.pc.Dequeued? && e.Notify? && e.note.Started?
  }

  predicate QuietGaps(s: State, events: seq<Event>)
    decreases |events|
  {
    events == [] || (!InGap(s, events[0]) && QuietGaps(Step(s, events[0]), events[1..]))
  }

  lemma DrainLoopGates(s: State)
    ensures GateOk(DrainLoop(s)) && GateOk(EndOfBody(s))
    ensures GateOk(s) ==> GateOk(KickDrain(s))
  {}

  lemma BusyGates(s: State)
    ensures PublishBusy(s).pc == s.pc && PublishBusy(s).nativeActive == s.nativeActive
  {}

  lemma IdleNoteGates(s: State, note: Note)
    requires s.turn.None? && GateOk(s) && !(s.pc.Dequeued? && note.Started?)
    ensures GateOk(OnNote(s, note, false))
  {
    hide OnStartedFor, OnGroupCompleted, OnSingleCompleted, InGroupMode, KickDrain, PublishBusy;
    BusyGates(s);
    if note.Started? { BusyGates(s.(nativeActive := NoteId(note.turnParam, note.rec))); }
    if note.Completed? {
      DrainLoopGates(SettleState(ClearNative(s, NoteId(note.turnParam, note.rec))));
    }
  }

  lemma TurnlessGates(s: State, e: Event)
    requires s.turn.None? && GateOk(s) && !IsLoopEvent(e) && !InGap(s, e)
    ensures GateOk(Step(s, e))
  {
    match e {
      case Notify(note) => IdleNoteGates(s, note);
      case SteerResponse(steeredId) =>
        if SteerAccepted(s, steeredId) { AfterJoinNoTurn(JoinGroup(s, s.steer.value), s.steer.value.epoch); }
      case _ =>
    }
  }

  lemma LoopEventGates(s: State, e: Event)
    requires IsLoopEvent(e) && GateOk(s)
    ensures GateOk(Step(s, e))
  {
    match e {
      case Framed(content, sidecar, replyId, steerable) =>
        DrainLoopGates(TryAdmitSteer(Receive(s, content, sidecar, replyId, steerable)));
      case PlainLine(line) => DrainLoopGates(Receive(s, line, None, None, false));
      case ThreadFailed(message) => if s.pc.Dequeued? { DrainLoopGates(FailureFinal(s, s.pc.input, message)); }
      case TurnDone => if s.turn.Some? { EmitGroupFrame(s, s.turn.value, 0); }
      case DrainResumed => DrainResumedGates(s);
      case _ =>
    }
  }

  lemma DrainResumedGates(s: State)
    requires GateOk(s)
    ensures GateOk(OnDrainResumed(s))
  {
    DrainLoopGates(s);
    if s.pc.Threw? && s.turn.Some? && |s.turn.value.accepted| > 0 {
      DrainLoopGates(FailureFinal(s, s.turn.value.accepted[0].input, s.pc.message));
    }
  }

  lemma StepGates(s: State, e: Event)
    requires Identified(s) && Driven(s) && GateOk(s) && !InGap(s, e)
    ensures GateOk(Step(s, e))
  {
    if IsLoopEvent(e) {
      LoopEventGates(s, e);
    } else if s.turn.None? {
      TurnlessGates(s, e);
    } else {
      OpenTurnDrives(s, e);
    }
  }

  lemma {:induction false} RunGates(s: State, events: seq<Event>)
    requires Identified(s) && Driven(s) && ParkedOk(s) && GateOk(s) && QuietGaps(s, events)
    ensures NoneSlipsIn(s, events)
    decreases |events|
  {
    if events != [] {
      StepKeepsIdentity(s, events[0]);
      StepParks(s, events[0]);
      StepGates(s, events[0]);
      RunGates(Step(s, events[0]), events[1..]);
    }
  }

  /** The gate closes every other way in: none slips in on a run in which no native turn starts
      while an input waits for its thread. */
  lemma OnlyGapsLetIn(cfg: Config, events: seq<Event>)
    requires QuietGaps(InitialState(cfg), events)
    ensures NoneSlipsIn(InitialState(cfg), events) && NeverTrespassed(InitialState(cfg), events)
  {
    InitialSound(cfg);
    RunGates(InitialState(cfg), events);
    GoalEntryIsExact(cfg, events);
  }

  /** The gap itself: an unauthorized input there enters exactly when a native turn is open. */
  lemma GapEntersExactly(s: State)
    requires s.pc.Dequeued? && !s.pc.input.steerable
    ensures var s' := Step(s, ThreadReady);
            s'.turn.Some? && (Trespassed(s') <==> s.nativeActive.Some?)
  {}

  const PLAIN := Input(0, "plain", None, None, false)
  const GAP_RUN: seq<Event> :=
    [PlainLine("plain")] + ([Notify(Started(Some(20), NativeTurn(Some(20), false, false, [], None)))] + ([ThreadReady] + []))

  /** A run that meets the gap: a plain line is steered into a Goal turn. */
  lemma GapLetsPlainLineIn(cfg: Config)
    ensures var s := Run(InitialState(cfg), GAP_RUN);
            && !s.overlapped && !s.fenced
            && s.turn.Some? && s.turn.value.rpc.expected == Some(20)
            && s.turn.value.accepted == [Dispatch(PLAIN, None)] && !PLAIN.steerable
  {
    var s0 := InitialState(cfg);
    var e1 := Notify(Started(Some(20), NativeTurn(Some(20), false, false, [], None)));
    var s1 := s0.(pc := Dequeued(PLAIN), inbound := [PLAIN]);
    PlainIsDequeued(s0);
    var s2 := s1.(nativeActive := Some(20), published := s0.published + [true]);
    assert Step(s1, e1) == s2;
    RunSplits(s0, s1, s2, e1);
  }

  lemma PlainIsDequeued(s: State)
    requires s.inbound == [] && s.queue == [] && s.pc == Idle && s.nativeActive.None? && !s.fenced
    ensures Step(s, PlainLine("plain")) == s.(pc := Dequeued(PLAIN), inbound := [PLAIN])
  {
    assert Receive(s, "plain", None, None, false) == s.(queue := [PLAIN], inbound := [PLAIN]);
    assert [PLAIN][1..] == [];
  }

  lemma RunSplits(s0: State, s1: State, s2: State, e1: Event)
    requires s1 == Step(s0, PlainLine("plain")) && s2 == Step(s1, e1)
    requires GAP_RUN == [PlainLine("plain")] + ([e1] + ([ThreadReady] + []))
    ensures Run(s0, GAP_RUN) == Step(s2, ThreadReady)
  {
    assert GAP_RUN[1..] == [e1] + ([ThreadReady] + []);
    assert ([e1] + ([ThreadReady] + []))[1..] == [ThreadReady] + [];
    assert ([ThreadReady] + [])[1..] == [];
    assert Run(s2, [ThreadReady] + []) == Run(Step(s2, ThreadReady), []);
    assert Run(s1, [e1] + ([ThreadReady] + [])) == Run(s2, [ThreadReady] + []);
  }
}
