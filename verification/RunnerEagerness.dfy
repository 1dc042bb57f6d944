/** No follow-up waits for nothing: a head that may be steered into the open turn is steered at once. */
module RunnerEagerness {
  import opened Prelude
  import opened NativeTurns
  import opened RunnerTypes
  import opened RunnerSteps
  import opened RunnerIdentity
  import opened RunnerInvariants
  import opened RunnerRuns
  import opened RunnerGuarantees
  import opened RunnerSettlements
  import opened RunnerDelivery

  /** The turn is under a history lookup, or its root is known by another id than the proved one. */
  predicate Withheld(t: Turn) {
    t.lookup != NoLookup || t.nativeId != t.canonical
  }

  /** A head that may be steered is withheld by its turn; and a turn whose root is known by no id has its
      canonical id by an exact proof. */
  predicate Eager(s: State) {
    && (Admits(s) ==> Withheld(s.turn.value))
    && Proven(s)
  }

  predicate Proven(s: State) {
    s.turn.Some? && s.turn.value.canonical.Some? && s.turn.value.nativeId.None? && !s.turn.value.completed ==>
      ExactProof(s.turn.value)
  }

  lemma AdmissionIsEager(s: State)
    requires Proven(s)
    ensures Eager(TryAdmitSteer(s))
  {}

  /** What steering depends on is unchanged, or the turn was completed. */
  predicate SameReach(s: State, s': State) {
    && s.turn.Some? && s'.turn.Some? && s'.queue == s.queue && s'.steer == s.steer && s'.fenced == s.fenced
    && var t, t' := s.turn.value, s'.turn.value;
    && t'.epoch == t.epoch && t'.accepted == t.accepted
    && (t'.completed || (
        && t'.completed == t.completed && t'.phase == t.phase && t'.steeringClosed == t.steeringClosed
        && t'.canonical == t.canonical && t'.nativeId == t.nativeId && t'.proof == t.proof
        && (t.lookup != NoLookup ==> t'.lookup != NoLookup)))
  }

  lemma SameReachIsEager(s: State, s': State)
    requires SameReach(s, s') && Eager(s)
    ensures Eager(s')
  {}

  lemma CompletionReaches(s: State, rec: NativeTurn, index: Option<nat>)
    requires s.turn.Some?
    ensures SameReach(s, CompleteSingle(s, rec, index))
  {
    hide Rebuild;
  }

  lemma ConflictReaches(s: State, reason: Reason)
    requires s.turn.Some? && (s.turn.value.conflictReported ==> s.turn.value.completed)
    ensures SameReach(s, ReportConflict(s, reason))
  {}

  lemma LookupsReach(s: State)
    requires s.turn.Some? && (s.turn.value.conflictReported ==> s.turn.value.completed)
    ensures SameReach(s, StartGroupLookup(s)) && forall keep :: SameReach(s, StartSingleLookup(s, keep))
  {
    hide StartGroupLookup, StartSingleLookup, SameReach;
    GroupLookupReaches(s);
    forall keep ensures SameReach(s, StartSingleLookup(s, keep)) { SingleLookupReaches(s, keep); }
  }

  lemma GroupLookupReaches(s: State)
    requires s.turn.Some?
    ensures SameReach(s, StartGroupLookup(s))
  {}

  lemma SingleLookupReaches(s: State, keepPending: bool)
    requires s.turn.Some? && (s.turn.value.conflictReported ==> s.turn.value.completed)
    ensures SameReach(s, StartSingleLookup(s, keepPending))
  {
    hide ReportConflict;
    ConflictReaches(s, NoClientId);
  }

  lemma GroupSettlementReaches(s: State, rec: NativeTurn)
    requires s.turn.Some? && (s.turn.value.conflictReported ==> s.turn.value.completed)
    ensures SameReach(s, SettleSteered(s, rec)) && SameReach(s, RouteBuffered(s, rec))
  {
    hide ReportConflict, StartGroupLookup, VerifyGroup, Rebuild;
    forall reason ensures SameReach(s, ReportConflict(s, reason)) { ConflictReaches(s, reason); }
    LookupsReach(s);
  }

  // ---- Notifications ---------------------------------------------------------------------------

  lemma GroupCompletionIsEager(s: State, id: Option<Id>, rec: NativeTurn)
    requires s.turn.Some? && (s.turn.value.conflictReported ==> s.turn.value.completed) && Eager(s)
    ensures Eager(OnGroupCompleted(s, s.turn.value, id, rec))
  {
    hide SettleSteered, StartGroupLookup, Eager, SameReach;
    var s1 := With(s, HoldCompletion(s.turn.value, id, rec));
    HeldIsEager(s, id, rec);
    GroupSettlementReaches(s1, rec);
    LookupsReach(s1);
    SameReachIsEager(s1, SettleSteered(s1, rec));
    SameReachIsEager(s1, StartGroupLookup(s1));
  }

  lemma HeldIsEager(s: State, id: Option<Id>, rec: NativeTurn)
    requires s.turn.Some? && Eager(s)
    ensures Eager(With(s, HoldCompletion(s.turn.value, id, rec)))
  {}

  lemma SingleCompletionIsEager(s: State, id: Option<Id>, rec: NativeTurn)
    requires s.turn.Some? && (s.turn.value.conflictReported ==> s.turn.value.completed) && Eager(s)
    ensures Eager(OnSingleCompleted(s, s.turn.value, id, rec))
  {
    hide ExactFor, CompleteSingle, StartSingleLookup, UpgradeByCompletion, Eager, SameReach;
    assert With(s, s.turn.value) == s;
    var exact := ExactFor(rec, s.turn.value.clientId);
    var index := if |exact| == 1 then Some(exact[0]) else None;
    CompletionReaches(s, rec, index);
    SameReachIsEager(s, CompleteSingle(s, rec, index));
    CompletionReaches(s, rec, None);
    SameReachIsEager(s, CompleteSingle(s, rec, None));
    LookupsReach(s);
    SameReachIsEager(s, StartSingleLookup(s, false));
    BufferReaches(s, rec);
    SameReachIsEager(s, With(s, s.turn.value.(pendingCompletions := s.turn.value.pendingCompletions + [rec])));
    if id.Some? {
      UpgradeIsEager(s, id.value, rec);
    }
  }

  lemma BufferReaches(s: State, rec: NativeTurn)
    requires s.turn.Some?
    ensures SameReach(s, With(s, s.turn.value.(pendingCompletions := s.turn.value.pendingCompletions + [rec])))
  {}

  lemma UpgradeIsEager(s: State, id: Id, rec: NativeTurn)
    requires s.turn.Some? && Eager(s)
    ensures Eager(UpgradeByCompletion(s, id, rec))
  {}

  lemma TurnlessIsEager(s: State)
    requires s.turn.None?
    ensures Eager(s)
  {}

  lemma CompletionIsEager(s: State, turnParam: Option<Id>, rec: NativeTurn)
    requires Identified(s) && Eager(s)
    ensures Eager(OnCompleted(s, turnParam, rec))
  {
    hide OnGroupCompleted, OnSingleCompleted, InGroupMode, SettleState, KickDrain, Eager;
    var id := NoteId(turnParam, rec);
    var s1 := ClearNative(s, id);
    assert s1 == s.(nativeActive := s1.nativeActive);
    if s1.turn.None? {
      KickKeepsIdentity(SettleState(s1));
      SettleKeepsTurn(s1);
      TurnlessIsEager(OnCompleted(s, turnParam, rec));
    } else {
      SlotIsNoReach(s, s1);
      GroupCompletionIsEager(s1, id, rec);
      SingleCompletionIsEager(s1, id, rec);
    }
  }

  lemma SettleKeepsTurn(s: State)
    ensures SettleState(s).turn == s.turn
  {}

  lemma SlotIsNoReach(s: State, s1: State)
    requires s1 == s.(nativeActive := s1.nativeActive) && Eager(s)
    ensures Eager(s1)
  {}

  lemma StartedIsEager(s: State, turnParam: Option<Id>, rec: NativeTurn, replayed: bool)
    requires Eager(s)
    ensures Eager(OnStarted(s, turnParam, rec, replayed))
  {
    hide OnStartedFor, Eager;
    var id := NoteId(turnParam, rec);
    SlotIsNoReach(s, s.(nativeActive := id));
    BusyIsEager(s);
    BusyIsEager(s.(nativeActive := id));
    if id.Some? && s.turn.Some? {
      StartedForIsEager(s, id.value, turnParam, rec);
      StartedForIsEager(s.(nativeActive := id), id.value, turnParam, rec);
    }
  }

  lemma BusyIsEager(s: State)
    requires Eager(s)
    ensures Eager(PublishBusy(s))
  {}

  lemma StartedForIsEager(s: State, id: Id, turnParam: Option<Id>, rec: NativeTurn)
    requires s.turn.Some? && Eager(s)
    ensures Eager(OnStartedFor(s, s.turn.value, id, turnParam, rec))
  {
    hide ExactFor, AfterStarted;
    var t, exact := s.turn.value, |ExactFor(rec, s.turn.value.clientId)| == 1;
    if exact && Contradicts(t, id) {
      FencedIsEager(With(s, t));
    } else {
      ProofIsTaken(s, id, exact, Started(turnParam, rec));
    }
  }

  lemma FencedIsEager(s: State)
    requires s.turn.Some?
    ensures Eager(FenceTurn(s))
  {}

  /** A proof that opens steering kicks it in the same step, or leaves the root under another id. */
  lemma ProofIsTaken(s: State, id: Id, exact: bool, note: Note)
    requires s.turn.Some? && Eager(s) && note.Started? && (exact ==> !Contradicts(s.turn.value, id))
    ensures Eager(AfterStarted(With(s, ProveStarted(s.turn.value, id, exact)), id, note))
  {
    hide AfterStarted, ProveStarted, Eager;
    var s1 := With(s, ProveStarted(s.turn.value, id, exact));
    if s1.turn.value.nativeId == Some(id) {
      OwnProofIsTaken(s, id, exact, note);
    } else {
      OtherProofIsWithheld(s, id, exact);
      OtherStartIsEager(s1, id, note);
    }
  }

  lemma OwnProofIsTaken(s: State, id: Id, exact: bool, note: Note)
    requires s.turn.Some? && Eager(s) && note.Started? && (exact ==> !Contradicts(s.turn.value, id))
    requires ProveStarted(s.turn.value, id, exact).nativeId == Some(id)
    ensures Eager(AfterStarted(With(s, ProveStarted(s.turn.value, id, exact)), id, note))
  {
    hide TryAdmitSteer, HoldsStart;
    var s1 := With(s, ProveStarted(s.turn.value, id, exact));
    AdmissionIsEager(With(s1, s1.turn.value.(serverStarted := true)));
  }

  lemma OtherProofIsWithheld(s: State, id: Id, exact: bool)
    requires s.turn.Some? && Eager(s)
    requires ProveStarted(s.turn.value, id, exact).nativeId != Some(id)
    ensures Eager(With(s, ProveStarted(s.turn.value, id, exact)))
  {}

  lemma OtherStartIsEager(s: State, id: Id, note: Note)
    requires s.turn.Some? && Eager(s) && note.Started? && s.turn.value.nativeId != Some(id)
    ensures Eager(AfterStarted(s, id, note))
  {
    hide TryAdmitSteer, HoldsStart;
  }

  lemma ProgressIsEager(s: State, note: Note)
    requires Eager(s)
    ensures Eager(OnProgress(s, note))
  {
    hide Heard;
  }

  lemma NoteIsEager(s: State, note: Note)
    requires Identified(s) && Eager(s)
    ensures Eager(OnNote(s, note, false))
  {
    hide OnStarted, OnCompleted, OnProgress;
    match note {
      case Started(turnParam, rec) => StartedIsEager(s, turnParam, rec, false);
      case Completed(turnParam, rec) => CompletionIsEager(s, turnParam, rec);
      case TokenUsage(_, _) =>
      case _ => ProgressIsEager(s, note);
    }
  }

  // ---- Responses, refusals and lookups ---------------------------------------------------------------

  lemma SameReachIsProven(s: State, s': State)
    requires SameReach(s, s') && Proven(s)
    ensures Proven(s') && s'.turn.Some?
  {}

  lemma SettlingIsProven(s: State)
    requires s.turn.Some? && (s.turn.value.conflictReported ==> s.turn.value.completed) && Proven(s)
    ensures Proven(SettleAfterResponse(s))
  {
    hide SettleSteered, RouteBuffered, CanResume, SameReach, Proven;
    if CanResume(s) {
      ResumableTerminal(s);
      GroupSettlementReaches(s, s.turn.value.terminal.value);
      SameReachIsProven(s, ResumeBuffered(s));
    }
    if SettlesBuffered(s) {
      ResumeKeepsConflict(s);
      GroupSettlementReaches(ResumeBuffered(s), s.turn.value.terminal.value);
      SameReachIsProven(ResumeBuffered(s), SettleAfterResponse(s));
    }
  }

  lemma ResumeKeepsConflict(s: State)
    requires s.turn.Some? && (s.turn.value.conflictReported ==> s.turn.value.completed)
    ensures var s1 := ResumeBuffered(s);
            s1.turn.Some? && (s1.turn.value.conflictReported ==> s1.turn.value.completed)
  {
    ConflictCompletes(s);
  }

  lemma StartedIsProven(s: State, turnParam: Option<Id>, rec: NativeTurn, replayed: bool)
    requires Proven(s)
    ensures Proven(OnStarted(s, turnParam, rec, replayed))
  {
    hide OnStartedFor;
    var id := NoteId(turnParam, rec);
    if id.Some? && s.turn.Some? {
      StartedForIsProven(s, id.value, turnParam, rec);
      StartedForIsProven(s.(nativeActive := id), id.value, turnParam, rec);
    }
  }

  lemma StartedForIsProven(s: State, id: Id, turnParam: Option<Id>, rec: NativeTurn)
    requires s.turn.Some? && Proven(s)
    ensures Proven(OnStartedFor(s, s.turn.value, id, turnParam, rec))
  {
    hide ExactFor, AfterStarted;
    AfterStartedIsProven(With(s, ProveStarted(s.turn.value, id, |ExactFor(rec, s.turn.value.clientId)| == 1)), id, Started(turnParam, rec));
  }

  lemma AfterStartedIsProven(s: State, id: Id, note: Note)
    requires s.turn.Some? && note.Started? && Proven(s)
    ensures Proven(AfterStarted(s, id, note))
  {
    hide TryAdmitSteer, PublishBusy, HoldsStart;
    KicksKeepTurn(s);
    KicksKeepTurn(With(s, s.turn.value.(serverStarted := true)));
  }

  lemma KicksKeepTurn(s: State)
    ensures TryAdmitSteer(s).turn == s.turn && PublishBusy(s).turn == s.turn
  {
    hide Admits;
  }

  lemma HeldNoteIsProven(s: State, note: Note)
    requires Proven(s) && !note.Completed?
    ensures Proven(OnNote(s, note, true))
  {
    hide OnStarted, Heard;
    if note.Started? { StartedIsProven(s, note.turnParam, note.rec, true); }
  }

  lemma {:induction false} ReplayIsProven(s: State, notes: seq<Note>)
    requires Proven(s) && NoCompletions(notes)
    ensures Proven(Replay(s, notes))
    decreases |notes|
  {
    hide OnNote, Proven;
    if notes != [] && s.turn.Some? {
      var note := notes[0];
      var id := if note.Started? || note.Completed? then NoteId(note.turnParam, note.rec) else note.turnParam;
      HeldNoteIsProven(s, note);
      var s1 := if id == s.turn.value.nativeId then OnNote(s, note, true) else s;
      ReplayIsProven(s1, notes[1..]);
    }
  }

  lemma PendingsAreProven(s: State, pendings: seq<NativeTurn>)
    requires s.turn.Some? && (s.turn.value.conflictReported ==> s.turn.value.completed) && Proven(s)
    ensures Proven(SettleFrom(s, pendings))
  {
    hide CompleteSingle, ReportConflict, StartSingleLookup, ExactPendings, NativePendings, SameReach, Proven;
    var t := s.turn.value;
    var exact := ExactPendings(pendings, t.clientId);
    var native := NativePendings(pendings, t.nativeId);
    ConflictReaches(s, ManyPreResponse);
    SameReachIsProven(s, ReportConflict(s, ManyPreResponse));
    LookupsReach(s);
    SameReachIsProven(s, StartSingleLookup(s, false));
    SameReachIsProven(s, StartSingleLookup(s, true));
    if |exact| == 1 {
      CompletionReaches(s, exact[0].0, Some(exact[0].1));
      SameReachIsProven(s, CompleteSingle(s, exact[0].0, Some(exact[0].1)));
    } else if |native| == 1 {
      CompletionReaches(s, native[0], None);
      SameReachIsProven(s, CompleteSingle(s, native[0], None));
    }
  }

  lemma AcceptanceIsProven(s: State, respId: Option<Id>)
    requires Identified(s) && s.pc == AwaitResponse && s.turn.Some?
    ensures Proven(AcceptRoot(s, respId))
  {
    hide NoCompletions;
  }

  /** After the response the kick is made, or withheld by a lookup. */
  lemma ResponseIsEager(s: State, responseId: Option<Id>)
    requires Identified(s) && Eager(s)
    ensures Eager(OnRootResponse(s, responseId))
  {
    hide AcceptRoot, SettleAfterResponse, Replay, SettleFrom, TryAdmitSteer, Proven, Eager;
    if s.pc == AwaitResponse && s.turn.Some? {
      var respId := if responseId.Some? then responseId else s.turn.value.nativeId;
      if ContradictsProof(s.turn.value, respId) {
        FencedRootIsEager(s);
      } else {
        AcceptRootCalm(s, respId);
        var s0 := AcceptRoot(s, respId);
        CalmIsIdentified(s, s0);
        AcceptanceIsProven(s, respId);
        SettlingIsProven(s0);
        var s1 := SettleAfterResponse(s0);
        SettleAfterResponseSteady(s0);
        SteadyIsIdentified(s0, s1);
        var s2 := With(s1, s1.turn.value.(pendingNotes := []));
        NotesAreNoProof(s1);
        ReplayIsProven(s2, s1.turn.value.pendingNotes);
        ReplayNotesSteady(s1);
        var s3 := ReplayNotes(s1);
        SteadyIsIdentified(s1, s3);
        var s4 := With(s3, s3.turn.value.(pendingCompletions := []));
        PendingsAreNoProof(s3);
        PendingsAreProven(s4, s3.turn.value.pendingCompletions);
        KickIsEager(SettlePendings(s3));
      }
    }
  }

  lemma CalmIsIdentified(s: State, s': State)
    requires Identified(s) && s.turn.Some? && Calm(s, s')
    ensures Identified(s') && s'.turn.Some? && (s'.turn.value.conflictReported ==> s'.turn.value.completed)
    ensures NoCompletions(s'.turn.value.pendingNotes)
  {}

  lemma SteadyIsIdentified(s: State, s': State)
    requires Identified(s) && s.turn.Some? && Steady(s, s')
    ensures Identified(s') && s'.turn.Some? && (s'.turn.value.conflictReported ==> s'.turn.value.completed)
    ensures NoCompletions(s'.turn.value.pendingNotes)
  {
    CalmIsIdentified(s, s');
  }

  lemma NotesAreNoProof(s: State)
    requires s.turn.Some? && Proven(s)
    ensures Proven(With(s, s.turn.value.(pendingNotes := [])))
  {}

  lemma PendingsAreNoProof(s: State)
    requires s.turn.Some? && Proven(s)
    ensures Proven(With(s, s.turn.value.(pendingCompletions := [])))
  {}

  lemma FencedRootIsEager(s: State)
    requires s.turn.Some?
    ensures Eager(FenceRoot(s))
  {}

  lemma KickIsEager(s: State)
    requires Proven(s)
    ensures Eager(KickAfterResponse(s))
  {
    hide TryAdmitSteer;
    AdmissionIsEager(s);
  }

  lemma JoinIsProven(s: State, rpc: SteerRpc)
    requires |s.queue| > 0 && Proven(s)
    ensures Proven(JoinGroup(s, rpc))
  {}

  lemma ResumedIsEager(s: State)
    requires s.turn.Some? && CanResume(s) && !s.turn.value.conflictReported && Proven(s)
    ensures Eager(ResumeBuffered(s))
  {
    hide SettleSteered, VerifyGroup, SameReach;
    var rec := s.turn.value.terminal.value;
    GroupSettlementReaches(s, rec);
    SameReachIsProven(s, RouteBuffered(s, rec));
    SettleSteeredCompletes(s, rec);
  }

  lemma SteerResponseIsEager(s: State, steeredId: Option<Id>)
    requires Sound(s) && Identified(s) && !s.overlapped && Eager(s)
    ensures Eager(OnSteerResponse(s, steeredId))
  {
    hide JoinGroup, ResumeBuffered, TryAdmitSteer, CanResume, Sound, Eager, Proven;
    EagerIsProven(s);
    if SteerAccepted(s, steeredId) {
      var s1 := JoinGroup(s, s.steer.value);
      JoinIsProven(s, s.steer.value);
      JoinGroupKeepsIdentity(s, s.steer.value);
      if s.turn.Some? && CanResume(s1) { ResumedKeepsOpen(s1); ResumedIsEager(s1); }
      AdmissionIsEager(s1);
    } else if s.steer.Some? {
      FencedSteerIsEager(s, s.steer.value.epoch);
    }
  }

  lemma EagerIsProven(s: State)
    requires Eager(s)
    ensures Proven(s)
  {}

  lemma ResumedKeepsOpen(s: State)
    requires Identified(s) && CanResume(s)
    ensures s.turn.Some? && !s.turn.value.conflictReported
  {}

  lemma FencedSteerIsEager(s: State, epoch: nat)
    requires Proven(s)
    ensures Eager(FenceSteer(s.(steer := None), epoch))
  {}

  /** A refused steer closes steering; it belonged to the open turn. */
  lemma SteerErrorIsEager(s: State, refusal: Failure)
    requires Sound(s) && Identified(s) && !s.overlapped && Eager(s)
    ensures Eager(OnSteerError(s, refusal))
  {
    hide RouteHeld, CloseSteering, Sound, Eager, Proven;
    EagerIsProven(s);
    if s.steer.Some? {
      if !s.fenced { SteerIsOwn(s); }
      FencedSteerIsEager(s, s.steer.value.epoch);
      if s.fenced { FencedStaysEager(s); }
      if s.turn.Some? { RefusalIsEager(s); }
    }
  }

  lemma SteerIsOwn(s: State)
    requires Sound(s) && !s.overlapped && !s.fenced && s.steer.Some?
    ensures s.turn.Some? && s.turn.value.epoch == s.steer.value.epoch
  {}

  lemma FencedStaysEager(s: State)
    requires s.fenced && Proven(s)
    ensures Eager(s.(steer := None))
  {}

  lemma RefusalIsEager(s: State)
    requires s.turn.Some? && (s.turn.value.conflictReported ==> s.turn.value.completed) && Proven(s)
    ensures Eager(RouteHeld(CloseSteering(s)))
  {
    hide RouteBuffered, SameReach;
    var s1 := CloseSteering(s);
    ShutIsEager(s1);
    if s1.turn.value.terminal.Some? {
      GroupSettlementReaches(s1, s1.turn.value.terminal.value);
      SameReachIsEager(s1, RouteBuffered(s1, s1.turn.value.terminal.value));
    }
  }

  lemma ShutIsEager(s: State)
    requires Proven(s) && s.turn.Some? && s.turn.value.steeringClosed
    ensures Eager(s)
  {}

  lemma ScanIsEager(s: State, candidates: seq<NativeTurn>, failed: bool, expired: bool)
    requires Identified(s) && Eager(s)
    ensures Eager(OnHistoryScanned(s, candidates, failed, expired))
  {
    hide Eager, Identified;
    if s.turn.Some? {
      OnHistoryScannedOpen(s, candidates, failed, expired);
      if OnHistoryScanned(s, candidates, failed, expired).turn.value.completed {
        CompletedIsEager(OnHistoryScanned(s, candidates, failed, expired));
      }
    }
  }

  lemma CompletedIsEager(s: State)
    requires s.turn.Some? && s.turn.value.completed
    ensures Eager(s)
  {}

  /** A scan settles its turn or leaves it exactly as it was. */
  lemma OnHistoryScannedOpen(s: State, candidates: seq<NativeTurn>, failed: bool, expired: bool)
    requires Identified(s) && s.turn.Some?
    ensures var s' := OnHistoryScanned(s, candidates, failed, expired);
            s'.turn.Some? && (s'.turn.value.completed || s' == s)
  {
    hide Calm, Identified, OnSingleScanned, OnGroupScanned;
    if s.turn.value.completed {
      OnHistoryScannedSteady(s, candidates, failed, expired);
      SettledStaysSettled(s, OnHistoryScanned(s, candidates, failed, expired));
    } else {
      OpenIsIdentified(s);
      if s.turn.value.lookup.SingleLookup? {
        SingleScanSettles(s, candidates, failed, expired);
      } else if s.turn.value.lookup == GroupLookup {
        GroupScanSettles(s, candidates, failed);
      }
    }
  }

  lemma SettledStaysSettled(s: State, s': State)
    requires s.turn.Some? && s.turn.value.completed && Steady(s, s')
    ensures s'.turn.Some? && s'.turn.value.completed
  {}

  lemma OpenIsIdentified(s: State)
    requires Identified(s) && s.turn.Some? && !s.turn.value.completed
    ensures !s.turn.value.conflictReported && (s.turn.value.lookup.SingleLookup? ==> s.turn.value.clientId.Some?)
  {}

  lemma SingleScanSettles(s: State, candidates: seq<NativeTurn>, failed: bool, expired: bool)
    requires s.turn.Some? && !s.turn.value.completed && !s.turn.value.conflictReported
    requires s.turn.value.lookup.SingleLookup? && s.turn.value.clientId.Some?
    ensures var s' := OnSingleScanned(s, candidates, failed, expired); s'.turn.Some? && (s'.turn.value.completed || s' == s)
  {
    hide ExactIndexes, SingleMatches, ReportConflict, CompleteSingle, Rebuild;
    var matches := SingleMatches(candidates, s.turn.value.clientId.value);
    SingleMatchesAreTerminal(candidates, s.turn.value.clientId.value);
    forall reason ensures Conflicted(s, ReportConflict(FinishLookup(s), reason)) { ScanConflicts(s, reason); }
    if |matches| == 1 { ScanMatches(s, matches[0].0, matches[0].1); }
  }

  lemma GroupScanSettles(s: State, candidates: seq<NativeTurn>, failed: bool)
    requires s.turn.Some? && !s.turn.value.completed && !s.turn.value.conflictReported && s.turn.value.lookup == GroupLookup
    ensures var s' := OnGroupScanned(s, candidates, failed); s'.turn.Some? && s'.turn.value.completed
  {
    hide GroupMatches, ReportConflict, Rebuild, ResolveGroup;
    ScanConflicts(s, GroupLookupFailed);
    ResolveGroupText(FinishLookup(s), GroupMatches(candidates, SentIds(s.turn.value.accepted)));
    ResolvedKeepsTurn(FinishLookup(s), GroupMatches(candidates, SentIds(s.turn.value.accepted)));
  }

  lemma ResolvedKeepsTurn(s: State, matches: seq<(NativeTurn, nat)>)
    requires s.turn.Some?
    ensures ResolveGroup(s, matches).turn.Some?
  {
    hide Rebuild;
  }

  // ---- The drain loop and the input line --------------------------------------------------------------

  lemma ReceivedIsProven(s: State, content: string, sidecar: Option<Sidecar>, replyId: Option<Id>, steerable: bool)
    requires Eager(s)
    ensures var s1 := Receive(s, content, sidecar, replyId, steerable);
            Proven(s1) && (!steerable ==> Eager(s1))
  {
    var s1 := Receive(s, content, sidecar, replyId, steerable);
    assert |s.queue| > 0 ==> s1.queue[0] == s.queue[0];
    assert |s.queue| == 0 ==> s1.queue[0].steerable == steerable;
  }

  /** With a turn open, the drain loop is in runTurn: a kick does nothing. */
  lemma KickOfOpenTurn(s: State)
    requires Driven(s) && Eager(s)
    ensures Eager(KickDrain(s))
  {
    if s.turn.None? || s.fenced {
      KickKeepsIdentity(s);
    }
  }

  lemma ReceiveDrives(s: State, content: string, sidecar: Option<Sidecar>, replyId: Option<Id>, steerable: bool)
    requires Driven(s)
    ensures var s1 := Receive(s, content, sidecar, replyId, steerable); Driven(s1) && Driven(TryAdmitSteer(s1))
  {
    hide Admits;
  }

  lemma LoopIsEager(s: State, e: Event)
    requires Driven(s) && Eager(s) && IsLoopEvent(e)
    ensures Eager(Step(s, e))
  {
    hide TryAdmitSteer, KickDrain, Eager, Proven, Driven;
    match e {
      case Framed(content, sidecar, replyId, steerable) =>
        var s1 := Receive(s, content, sidecar, replyId, steerable);
        ReceivedIsProven(s, content, sidecar, replyId, steerable);
        ReceiveDrives(s, content, sidecar, replyId, steerable);
        AdmissionIsEager(s1);
        KickOfOpenTurn(TryAdmitSteer(s1));
      case PlainLine(line) =>
        ReceivedIsProven(s, line, None, None, false);
        ReceiveDrives(s, line, None, None, false);
        KickOfOpenTurn(Receive(s, line, None, None, false));
      case ThreadReady => if s.pc.Dequeued? { FreshIsEager(s, s.pc.input); }
      case _ => RestOfLoopIsEager(s, e);
    }
  }

  lemma FreshIsEager(s: State, input: Input)
    ensures Eager(BeginTurn(s, input))
  {}

  lemma RestOfLoopIsEager(s: State, e: Event)
    requires Driven(s) && Eager(s) && IsLoopEvent(e) && !e.Framed? && !e.PlainLine? && !e.ThreadReady?
    ensures Eager(Step(s, e))
  {
    LoopEventFrame(s, e);
    if e.TurnDone? && s.turn.Some? { EmitGroupFrame(s, s.turn.value, 0); }
  }

  lemma StepIsEager(s: State, e: Event)
    requires Sound(s) && Identified(s) && !s.overlapped && Driven(s) && Eager(s)
    ensures Eager(Step(s, e))
  {
    hide Sound, Identified, Driven, Eager;
    if IsLoopEvent(e) {
      LoopIsEager(s, e);
    } else {
      match e {
        case RootResponse(responseId) => ResponseIsEager(s, responseId);
        case RootError(failure) => RootErrorIsEager(s, failure);
        case SteerResponse(steeredId) => SteerResponseIsEager(s, steeredId);
        case SteerError(refusal) => SteerErrorIsEager(s, refusal);
        case Notify(note) => NoteIsEager(s, note);
        case HistoryScanned(candidates, failed, expired) => ScanIsEager(s, candidates, failed, expired);
      }
    }
  }

  lemma RootErrorIsEager(s: State, failure: Failure)
    requires Identified(s) && Eager(s)
    ensures Eager(OnRootError(s, failure))
  {
    hide NoCompletions;
  }

  lemma {:induction false} RunIsEager(s: State, events: seq<Event>)
    requires Sound(s) && Identified(s) && Driven(s) && ParkedOk(s) && Eager(s) && !Run(s, events).overlapped
    ensures Eager(Run(s, events))
    decreases |events|
  {
    hide Identified, Sound, Driven, ParkedOk, Step, Eager;
    if events != [] {
      if s.overlapped { RunKeepsOverlap(s, events); }
      StepSound(s, events[0]);
      StepKeepsIdentity(s, events[0]);
      StepParks(s, events[0]);
      StepIsEager(s, events[0]);
      RunIsEager(Step(s, events[0]), events[1..]);
    }
  }

  /** On every run without an overlap: whenever the queue's head may be steered into the open turn (both are
      authorized, the native turn is proved, and nothing closed or fenced it), it is on its way, unless a
      history lookup has claimed the turn or its root is known by another native id than the proved one. */
  lemma NoFollowUpWaits(cfg: Config, events: seq<Event>)
    requires var s := Run(InitialState(cfg), events);
             && !s.overlapped && !s.fenced && s.turn.Some? && |s.queue| > 0 && s.queue[0].steerable
             && RootSteerable(s.turn.value) && !s.turn.value.completed && s.turn.value.canonical.Some?
             && !s.turn.value.steeringClosed && s.turn.value.phase != Closing && s.turn.value.phase != Fenced
    ensures var s := Run(InitialState(cfg), events);
            var t := s.turn.value;
            || (s.steer.Some? && s.steer.value.dispatch.input == s.queue[0] && Some(s.steer.value.expected) == t.canonical)
            || t.lookup != NoLookup || t.nativeId != t.canonical
  {
    hide Run, Identified;
    InitialSound(cfg);
    RunIsEager(InitialState(cfg), events);
    RunFrom(InitialState(cfg), events);
  }
}
