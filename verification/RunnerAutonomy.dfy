/** Output of a native turn before the runner's own request in it is accepted. For a start it is held until
    the response names the turn; for a steer into a Goal turn it is that turn's own, and never counts. */
module RunnerAutonomy {
  import opened Prelude
  import opened NativeTurns
  import opened RunnerTypes
  import opened RunnerSteps
  import opened RunnerIdentity
  import opened RunnerInvariants
  import opened RunnerRuns
  import opened RunnerGuarantees
  import opened RunnerProofs
  import opened RunnerDelivery
  import opened RunnerReplacements
  import opened RunnerAnswers

  /** Until its request is accepted an open root has heard nothing, and a Goal root holds nothing back. */
  predicate Unpromoted(t: Turn) {
    !t.requestAccepted ==>
      && (!t.completed ==> t.finalText == Said("") && t.allAgentText == "" && t.seenItems == {})
      && (t.kind == SteerRequest ==> t.pendingNotes == [])
      && (forall note | note in t.pendingNotes :: Owner(note).Some?)
  }

  predicate NothingPromoted(s: State) {
    s.turn.Some? ==> Unpromoted(s.turn.value)
  }

  /** The turn's request and what is held for it are as they were, and so is its text, if it is still open. */
  predicate SameHolding(s: State, s': State) {
    && s.turn.Some? && s'.turn.Some?
    && var t, t' := s.turn.value, s'.turn.value;
    && t'.kind == t.kind && t'.requestAccepted == t.requestAccepted && t'.pendingNotes == t.pendingNotes
    && (t.completed ==> t'.completed)
    && (!t'.completed ==> SameText(t, t'))
  }

  lemma SameHoldingPromotesNothing(s: State, s': State)
    requires SameHolding(s, s') && NothingPromoted(s)
    ensures NothingPromoted(s')
  {}

  lemma AcceptedPromotes(s: State)
    requires s.turn.Some? ==> s.turn.value.requestAccepted
    ensures NothingPromoted(s)
  {}

  // ---- Settlements and lookups ---------------------------------------------------------------

  lemma SettlementsHold(s: State, rec: NativeTurn, index: Option<nat>)
    requires s.turn.Some?
    ensures SameHolding(s, CompleteSingle(s, rec, index)) && SameHolding(s, FenceTurn(s))
  {
    hide Rebuild;
  }

  lemma ConflictHolds(s: State, reason: Reason)
    requires s.turn.Some? && (s.turn.value.conflictReported ==> s.turn.value.completed)
    ensures SameHolding(s, ReportConflict(s, reason))
  {}

  lemma GroupLookupHolds(s: State)
    requires s.turn.Some?
    ensures SameHolding(s, StartGroupLookup(s))
  {}

  lemma SingleLookupHolds(s: State)
    requires s.turn.Some? && (s.turn.value.conflictReported ==> s.turn.value.completed)
    ensures SameHolding(s, StartSingleLookup(s, false))
  {
    hide ReportConflict;
    ConflictHolds(s, NoClientId);
  }

  lemma GroupSettlementHolds(s: State, rec: NativeTurn)
    requires s.turn.Some? && (s.turn.value.conflictReported ==> s.turn.value.completed)
    ensures SameHolding(s, SettleSteered(s, rec)) && SameHolding(s, RouteBuffered(s, rec))
  {
    hide ReportConflict, StartGroupLookup, VerifyGroup, Rebuild;
    forall reason ensures SameHolding(s, ReportConflict(s, reason)) { ConflictHolds(s, reason); }
    GroupLookupHolds(s);
  }

  lemma GroupCompletionHolds(s: State, id: Option<Id>, rec: NativeTurn)
    requires s.turn.Some? && (s.turn.value.conflictReported ==> s.turn.value.completed)
    ensures SameHolding(s, OnGroupCompleted(s, s.turn.value, id, rec))
  {
    hide SettleSteered, StartGroupLookup;
    var s1 := With(s, HoldCompletion(s.turn.value, id, rec));
    GroupSettlementHolds(s1, rec);
    GroupLookupHolds(s1);
  }

  lemma SingleCompletionHolds(s: State, id: Option<Id>, rec: NativeTurn)
    requires s.turn.Some? && (s.turn.value.conflictReported ==> s.turn.value.completed)
    ensures SameHolding(s, OnSingleCompleted(s, s.turn.value, id, rec))
  {
    hide ExactFor, CompleteSingle, StartSingleLookup, UpgradeByCompletion, SameHolding;
    WithOwn(s);
    var exact := ExactFor(rec, s.turn.value.clientId);
    SettlementsHold(s, rec, if |exact| == 1 then Some(exact[0]) else None);
    SettlementsHold(s, rec, None);
    SingleLookupHolds(s);
    BufferHolds(s, rec);
    if id.Some? { UpgradeHolds(s, id.value, rec); }
  }

  lemma BufferHolds(s: State, rec: NativeTurn)
    requires s.turn.Some?
    ensures SameHolding(s, With(s, s.turn.value.(pendingCompletions := s.turn.value.pendingCompletions + [rec])))
  {}

  lemma UpgradeHolds(s: State, id: Id, rec: NativeTurn)
    requires s.turn.Some?
    ensures SameHolding(s, UpgradeByCompletion(s, id, rec))
  {}

  lemma CompletionPromotesNothing(s: State, turnParam: Option<Id>, rec: NativeTurn)
    requires Identified(s) && NothingPromoted(s)
    ensures NothingPromoted(OnCompleted(s, turnParam, rec))
  {
    hide OnGroupCompleted, OnSingleCompleted, InGroupMode, SettleState, KickDrain, SameHolding, Unpromoted;
    var id := NoteId(turnParam, rec);
    var s1 := ClearNative(s, id);
    assert s1 == s.(nativeActive := s1.nativeActive);
    if s1.turn.None? {
      KickKeepsIdentity(SettleState(s1));
      SettleKeepsNoTurn(s1);
    } else {
      GroupCompletionHolds(s1, id, rec);
      SingleCompletionHolds(s1, id, rec);
      SameHoldingPromotesNothing(s1, OnCompleted(s, turnParam, rec));
    }
  }

  lemma SettleKeepsNoTurn(s: State)
    ensures SettleState(s).turn == s.turn
  {}

  lemma StartedPromotesNothing(s: State, turnParam: Option<Id>, rec: NativeTurn)
    requires NothingPromoted(s)
    ensures NothingPromoted(OnStarted(s, turnParam, rec, false))
  {
    hide OnStartedFor, Unpromoted;
    var id := NoteId(turnParam, rec);
    if id.Some? && s.turn.Some? { StartedForPromotesNothing(s.(nativeActive := id), id.value, turnParam, rec); }
  }

  lemma StartedForPromotesNothing(s: State, id: Id, turnParam: Option<Id>, rec: NativeTurn)
    requires s.turn.Some? && NothingPromoted(s) && NoteId(turnParam, rec) == Some(id)
    ensures NothingPromoted(OnStartedFor(s, s.turn.value, id, turnParam, rec))
  {
    hide ExactFor, AfterStarted;
    var exact := |ExactFor(rec, s.turn.value.clientId)| == 1;
    HeldStartPromotesNothing(With(s, ProveStarted(s.turn.value, id, exact)), id, Started(turnParam, rec));
  }

  lemma HeldStartPromotesNothing(s: State, id: Id, note: Note)
    requires s.turn.Some? && NothingPromoted(s) && note.Started? && Owner(note) == Some(id)
    ensures NothingPromoted(AfterStarted(s, id, note))
  {
    hide TryAdmitSteer, HoldsStart, ExactProof, Unpromoted;
    var t := s.turn.value;
    var s2 := With(s, t.(serverStarted := true));
    AdmissionKeepsText(s2);
    StartPromotesNothing(t, note);
    assert AfterStarted(s, id, note).turn == s.turn || AfterStarted(s, id, note).turn == s2.turn
        || (t.kind == StartRequest && AfterStarted(s, id, note).turn == Some(t.(pendingNotes := t.pendingNotes + [note])));
  }

  lemma StartPromotesNothing(t: Turn, note: Note)
    requires Unpromoted(t) && Owner(note).Some?
    ensures Unpromoted(t.(serverStarted := true))
    ensures t.kind == StartRequest ==> Unpromoted(t.(pendingNotes := t.pendingNotes + [note]))
  {}

  lemma ProgressPromotesNothing(s: State, note: Note)
    requires NothingPromoted(s)
    ensures NothingPromoted(OnProgress(s, note))
  {
    hide Heard;
  }

  lemma NotePromotesNothing(s: State, note: Note)
    requires Identified(s) && NothingPromoted(s)
    ensures NothingPromoted(OnNote(s, note, false))
  {
    hide OnStarted, OnCompleted, OnProgress;
    match note {
      case Started(turnParam, rec) => StartedPromotesNothing(s, turnParam, rec);
      case Completed(turnParam, rec) => CompletionPromotesNothing(s, turnParam, rec);
      case TokenUsage(_, _) =>
      case _ => ProgressPromotesNothing(s, note);
    }
  }

  // ---- Responses, refusals, lookups and the drain loop ----------------------------------------------

  lemma ResponsePromotesNothing(s: State, responseId: Option<Id>)
    requires Identified(s) && NothingPromoted(s)
    ensures NothingPromoted(OnRootResponse(s, responseId))
  {
    hide AfterAccept, AcceptRoot, FenceRoot, Unpromoted, Identified;
    if s.pc == AwaitResponse && s.turn.Some? {
      var respId := if responseId.Some? then responseId else s.turn.value.nativeId;
      RootsAreAnswered(s, respId);
      if !ContradictsProof(s.turn.value, respId) {
        AfterAcceptSteady(AcceptRoot(s, respId));
        StaysAccepted(AcceptRoot(s, respId), AfterAccept(AcceptRoot(s, respId)));
      }
    }
  }

  lemma RootsAreAnswered(s: State, respId: Option<Id>)
    requires s.turn.Some? && NothingPromoted(s)
    ensures AcceptRoot(s, respId).turn.Some? && AcceptRoot(s, respId).turn.value.requestAccepted
    ensures NothingPromoted(FenceRoot(s))
  {}

  lemma StaysAccepted(s: State, s': State)
    requires s.turn.Some? && s.turn.value.requestAccepted && Steady(s, s')
    ensures NothingPromoted(s')
  {}

  lemma ErrorPromotesNothing(s: State, failure: Failure)
    requires NothingPromoted(s)
    ensures NothingPromoted(OnRootError(s, failure))
  {}

  lemma SteerResponsePromotesNothing(s: State, steeredId: Option<Id>)
    requires Identified(s) && NothingPromoted(s)
    ensures NothingPromoted(OnSteerResponse(s, steeredId))
  {
    hide JoinGroup, RouteBuffered, TryAdmitSteer, CanResume, Unpromoted, SameHolding, NoCompletions;
    if SteerAccepted(s, steeredId) {
      var s1 := JoinGroup(s, s.steer.value);
      JoinPromotesNothing(s, s.steer.value);
      if s.turn.Some? {
        if CanResume(s1) {
          ResumableTerminal(s1);
          GroupSettlementHolds(s1, s1.turn.value.terminal.value);
          SameHoldingPromotesNothing(s1, ResumeBuffered(s1));
        }
        AdmissionKeepsText(s1);
      } else {
        AfterJoinNoTurn(s1, s.steer.value.epoch);
      }
    } else if s.steer.Some? {
      FencePromotesNothing(s, s.steer.value.epoch);
    }
  }

  lemma JoinPromotesNothing(s: State, rpc: SteerRpc)
    requires |s.queue| > 0 && Identified(s) && NothingPromoted(s)
    ensures var s1 := JoinGroup(s, rpc);
            && NothingPromoted(s1) && (s1.turn.Some? <==> s.turn.Some?)
            && (s1.turn.Some? ==> (s1.turn.value.conflictReported ==> s1.turn.value.completed))
  {
    hide NoCompletions;
  }

  lemma FencePromotesNothing(s: State, epoch: nat)
    requires NothingPromoted(s)
    ensures NothingPromoted(FenceSteer(s.(steer := None), epoch))
  {}

  lemma SteerErrorPromotesNothing(s: State, refusal: Failure)
    requires Identified(s) && NothingPromoted(s)
    ensures NothingPromoted(OnSteerError(s, refusal))
  {
    hide RouteHeld, CloseSteering, FenceSteer, Unpromoted, Identified;
    if s.steer.Some? { FencePromotesNothing(s, s.steer.value.epoch); }
    if s.turn.Some? { RefusalPromotesNothing(s); }
  }

  lemma RefusalPromotesNothing(s: State)
    requires Identified(s) && s.turn.Some? && NothingPromoted(s)
    ensures NothingPromoted(RouteHeld(CloseSteering(s)))
  {
    hide RouteBuffered, SameHolding, NoCompletions;
    var s1 := CloseSteering(s);
    if s1.turn.value.terminal.Some? {
      GroupSettlementHolds(s1, s1.turn.value.terminal.value);
      SameHoldingPromotesNothing(s1, RouteBuffered(s1, s1.turn.value.terminal.value));
    }
  }

  lemma ScanHolds(s: State, candidates: seq<NativeTurn>, failed: bool, expired: bool)
    requires Identified(s) && s.turn.Some?
    ensures SameHolding(s, OnHistoryScanned(s, candidates, failed, expired))
  {
    hide ReportConflict, CompleteSingle, ExactIndexes, SingleMatches, GroupMatches, Rebuild, NoCompletions;
    var s1 := FinishLookup(s);
    forall reason ensures SameHolding(s, ReportConflict(s1, reason)) {
      ConflictHolds(s1, reason);
      HoldsThen(s, s1, ReportConflict(s1, reason));
    }
    forall rec, index ensures SameHolding(s, CompleteSingle(s1, rec, index)) {
      SettlementsHold(s1, rec, index);
      HoldsThen(s, s1, CompleteSingle(s1, rec, index));
    }
  }

  lemma HoldsThen(s: State, s1: State, s2: State)
    requires SameHolding(s, s1) && SameHolding(s1, s2)
    ensures SameHolding(s, s2)
  {}

  lemma LoopPromotesNothing(s: State, e: Event)
    requires NothingPromoted(s) && IsLoopEvent(e)
    ensures NothingPromoted(Step(s, e))
  {
    LoopEventFrame(s, e);
    if e.ThreadReady? && s.pc.Dequeued? { FreshIsUnpromoted(s, s.pc.input); }
  }

  lemma FreshIsUnpromoted(s: State, input: Input)
    ensures NothingPromoted(BeginTurn(s, input))
  {}

  lemma StepPromotesNothing(s: State, e: Event)
    requires Identified(s) && NothingPromoted(s)
    ensures NothingPromoted(Step(s, e))
  {
    hide Identified, NothingPromoted;
    if IsLoopEvent(e) {
      LoopPromotesNothing(s, e);
    } else {
      match e {
        case RootResponse(responseId) => ResponsePromotesNothing(s, responseId);
        case RootError(failure) => ErrorPromotesNothing(s, failure);
        case SteerResponse(steeredId) => SteerResponsePromotesNothing(s, steeredId);
        case SteerError(refusal) => SteerErrorPromotesNothing(s, refusal);
        case Notify(note) => NotePromotesNothing(s, note);
        case HistoryScanned(candidates, failed, expired) =>
          if s.turn.Some? {
            ScanHolds(s, candidates, failed, expired);
            SameHoldingPromotesNothing(s, Step(s, e));
          }
      }
    }
  }

  lemma {:induction false} RunPromotesNothing(s: State, events: seq<Event>)
    requires Identified(s) && NothingPromoted(s)
    ensures NothingPromoted(Run(s, events)) && Identified(Run(s, events))
    decreases |events|
  {
    if events != [] {
      hide Identified, NothingPromoted, Step;
      StepKeepsIdentity(s, events[0]);
      StepPromotesNothing(s, events[0]);
      RunPromotesNothing(Step(s, events[0]), events[1..]);
    }
  }

  /** On every run, overlapped or not: as long as the request of an open turn is unanswered, none of what the
      app-server streamed has reached the turn's text; and for a root steered into a Goal turn none of it is
      even held, so that the Goal turn's own output is never promoted into the answer. What is held names its turn. */
  lemma AutonomousOutputIsNotPromoted(cfg: Config, events: seq<Event>)
    requires var s := Run(InitialState(cfg), events); s.turn.Some? && !s.turn.value.requestAccepted
    ensures var t := Run(InitialState(cfg), events).turn.value;
            && (!t.completed ==> t.finalText == Said("") && t.allAgentText == "" && t.seenItems == {})
            && (t.kind == SteerRequest ==> t.pendingNotes == [])
            && (forall note | note in t.pendingNotes :: Owner(note).Some?)
  {
    hide Run, Identified;
    InitialSound(cfg);
    RunPromotesNothing(InitialState(cfg), events);
  }
}
