/** The competing witnesses of a turn's native id: which of them proves it, which contradicts
    it and fences the generation, and which is let through in spite of what was proved. */
module RunnerProofs {
  import opened Prelude
  import opened NativeTurns
  import opened RunnerTypes
  import opened RunnerSteps
  import opened RunnerIdentity
  import opened RunnerInvariants
  import opened RunnerRuns
  import opened RunnerGuarantees
  import opened RunnerSettlements
  import opened RunnerShortfalls
  import opened RunnerGoalEntry

  // ---- The claims --------------------------------------------------------------------------

  /** The native id that an event claims, as a proof, for the open turn: by an exact
      turn/started; by an exact turn/completed while an authorized root's start is pending and
      no group has begun; or by the root's response. */
  function Claim(s: State, e: Event): Option<Id>
    requires s.turn.Some?
  {
    var t := s.turn.value;
    match e
    case Notify(Started(turnParam, rec)) =>
      if |ExactFor(rec, t.clientId)| == 1 then NoteId(turnParam, rec) else None
    case Notify(Completed(turnParam, rec)) =>
      var id := NoteId(turnParam, rec);
      if !InGroupMode(s, t) && |ExactFor(rec, t.clientId)| == 1 && UpgradesToProof(t, id) then id else None
    case RootResponse(responseId) =>
      if s.pc != AwaitResponse then None else if responseId.Some? then responseId else t.nativeId
    case _ => None
  }

  /** The turn, its canonical id and the fence are left alone. */
  predicate Unproved(s: State, s': State) {
    && s.turn.Some? && s'.turn.Some?
    && s'.fenced == s.fenced
    && s'.turn.value.canonical == s.turn.value.canonical
  }

  /** And so are the id the turn is known by and what it holds back. */
  predicate KeepsBinding(s: State, s': State) {
    && Unproved(s, s')
    && s'.turn.value.nativeId == s.turn.value.nativeId
    && s'.turn.value.requestAccepted == s.turn.value.requestAccepted
    && s'.turn.value.pendingNotes == s.turn.value.pendingNotes
    && (s.turn.value.completed ==> s'.turn.value.completed)
  }

  lemma CompleteSingleProvesNothing(s: State, rec: NativeTurn, index: Option<nat>)
    requires s.turn.Some?
    ensures Unproved(s, CompleteSingle(s, rec, index))
  {
    hide Rebuild;
  }

  lemma ReportConflictKeepsBinding(s: State, reason: Reason)
    requires s.turn.Some?
    ensures KeepsBinding(s, ReportConflict(s, reason))
  {}

  lemma SingleLookupProvesNothing(s: State, keepPending: bool)
    requires s.turn.Some?
    ensures Unproved(s, StartSingleLookup(s, keepPending))
  {
    hide ReportConflict;
    ReportConflictKeepsBinding(s, NoClientId);
  }

  lemma GroupLookupKeepsBinding(s: State)
    requires s.turn.Some?
    ensures KeepsBinding(s, StartGroupLookup(s))
  {}

  lemma SettleSteeredKeepsBinding(s: State, rec: NativeTurn)
    requires s.turn.Some?
    ensures KeepsBinding(s, SettleSteered(s, rec))
  {
    hide ReportConflict, Rebuild, VerifyGroup;
    var verdict := VerifyGroup(rec, SentIds(s.turn.value.accepted));
    if verdict.Refused? { ReportConflictKeepsBinding(s, verdict.reason); }
  }

  lemma RouteBufferedKeepsBinding(s: State, rec: NativeTurn)
    requires s.turn.Some?
    ensures KeepsBinding(s, RouteBuffered(s, rec))
  {
    hide SettleSteered, StartGroupLookup;
    SettleSteeredKeepsBinding(s, rec);
    GroupLookupKeepsBinding(s);
  }

  // ---- turn/started ---------------------------------------------------------------------------

  lemma AfterStartedProvesNothing(s: State, id: Id, note: Note)
    requires s.turn.Some? && note.Started?
    ensures Unproved(s, AfterStarted(s, id, note))
  {
    hide Admits;
  }

  lemma StartedForProves(s: State, id: Id, turnParam: Option<Id>, rec: NativeTurn)
    requires s.turn.Some? && !s.fenced
    ensures var t := s.turn.value;
            var s' := OnStartedFor(s, t, id, turnParam, rec);
            var exact := |ExactFor(rec, t.clientId)| == 1;
            && s'.turn.Some?
            && (s'.fenced <==> exact && Contradicts(t, id))
            && (!s'.fenced ==> s'.turn.value.canonical == if exact then Some(id) else t.canonical)
  {
    hide ExactFor, AfterStarted;
    var exact := |ExactFor(rec, s.turn.value.clientId)| == 1;
    AfterStartedProvesNothing(With(s, ProveStarted(s.turn.value, id, exact)), id, Started(turnParam, rec));
  }

  lemma StartedProves(s: State, turnParam: Option<Id>, rec: NativeTurn)
    requires s.turn.Some? && !s.fenced
    ensures Settled(s, Notify(Started(turnParam, rec)))
  {
    hide ExactFor, OnStartedFor;
    var id := NoteId(turnParam, rec);
    if id.Some? { StartedForProves(s.(nativeActive := id), id.value, turnParam, rec); }
  }

  /** The verdict on an event's claim, whatever it is. */
  predicate Settled(s: State, e: Event)
    requires s.turn.Some?
  {
    var s' := Step(s, e);
    var claim := Claim(s, e);
    && s'.turn.Some?
    && (s'.fenced <==> claim.Some? && Contradicts(s.turn.value, claim.value))
    && (!s'.fenced && (claim.None? || !s.turn.value.completed) ==>
          s'.turn.value.canonical == if claim.Some? then claim else s.turn.value.canonical)
  }

  // ---- turn/completed -----------------------------------------------------------------------

  lemma UpgradeProves(s: State, id: Id, rec: NativeTurn)
    requires s.turn.Some? && !s.fenced
    ensures var s' := UpgradeByCompletion(s, id, rec);
            && s'.turn.Some?
            && (s'.fenced <==> Contradicts(s.turn.value, id))
            && (!s'.fenced ==> s'.turn.value.canonical == Some(id))
  {}

  lemma SingleCompletionProves(s: State, id: Option<Id>, rec: NativeTurn)
    requires s.turn.Some? && !s.fenced
    ensures var t := s.turn.value;
            var s' := OnSingleCompleted(s, t, id, rec);
            var claims := |ExactFor(rec, t.clientId)| == 1 && UpgradesToProof(t, id);
            && s'.turn.Some?
            && (s'.fenced <==> claims && Contradicts(t, id.value))
            && (!s'.fenced ==> s'.turn.value.canonical == if claims then id else t.canonical)
  {
    hide ExactFor, CompleteSingle, StartSingleLookup, UpgradeByCompletion;
    var t := s.turn.value;
    assert With(s, t) == s;
    var exact := ExactFor(rec, t.clientId);
    SingleLookupProvesNothing(s, false);
    CompleteSingleProvesNothing(s, rec, if |exact| == 1 then Some(exact[0]) else None);
    if id.Some? { UpgradeProves(s, id.value, rec); }
  }

  lemma GroupCompletionProvesNothing(s: State, id: Option<Id>, rec: NativeTurn)
    requires s.turn.Some?
    ensures Unproved(s, OnGroupCompleted(s, s.turn.value, id, rec))
  {
    hide SettleSteered, StartGroupLookup;
    var s1 := With(s, HoldCompletion(s.turn.value, id, rec));
    SettleSteeredKeepsBinding(s1, rec);
    GroupLookupKeepsBinding(s1);
  }

  lemma CompletedProves(s: State, turnParam: Option<Id>, rec: NativeTurn)
    requires s.turn.Some? && !s.fenced
    ensures Settled(s, Notify(Completed(turnParam, rec)))
  {
    hide ExactFor, OnGroupCompleted, OnSingleCompleted;
    var id := NoteId(turnParam, rec);
    var s1 := ClearNative(s, id);
    assert s1 == s.(nativeActive := s1.nativeActive);
    GroupCompletionProvesNothing(s1, id, rec);
    SingleCompletionProves(s1, id, rec);
  }

  // ---- The root's response --------------------------------------------------------------------

  /** What a replay of held notes leaves alone. */
  predicate StaysOpen(s: State, s': State) {
    && s.turn.Some? && s'.turn.Some?
    && s'.fenced == s.fenced
    && var t, t' := s.turn.value, s'.turn.value;
    && t'.nativeId == t.nativeId && t'.clientId == t.clientId && t'.requestAccepted == t.requestAccepted
    && t'.completed == t.completed && t'.lookup == t.lookup && t'.conflictReported == t.conflictReported
    && t'.pendingCompletions == t.pendingCompletions && t'.kind == t.kind
    && (t'.canonical == t.canonical || (t.nativeId.Some? && t'.canonical == t.nativeId))
  }

  /** A root whose request was accepted, under the id it is known by. */
  predicate Bound(s: State) {
    && s.turn.Some? && !s.fenced
    && s.turn.value.requestAccepted
    && (s.turn.value.canonical.None? || s.turn.value.nativeId.None? || s.turn.value.canonical == s.turn.value.nativeId)
  }

  lemma OwnStartedForStaysOpen(s: State, turnParam: Option<Id>, rec: NativeTurn)
    requires Bound(s) && s.turn.value.nativeId.Some?
    ensures StaysOpen(s, OnStartedFor(s, s.turn.value, s.turn.value.nativeId.value, turnParam, rec))
  {
    hide ExactFor, AfterStarted;
    var exact := |ExactFor(rec, s.turn.value.clientId)| == 1;
    OwnProofStaysOpen(s, exact, Started(turnParam, rec));
  }

  lemma OwnStartStaysOpen(s: State, turnParam: Option<Id>, rec: NativeTurn)
    requires Bound(s) && NoteId(turnParam, rec) == s.turn.value.nativeId
    ensures StaysOpen(s, OnStarted(s, turnParam, rec, true))
  {
    hide OnStartedFor;
    var id := s.turn.value.nativeId;
    if id.Some? {
      OwnStartedForStaysOpen(s, turnParam, rec);
      OwnStartedForStaysOpen(s.(nativeActive := id), turnParam, rec);
    }
  }

  lemma OwnProofStaysOpen(s: State, exact: bool, note: Note)
    requires Bound(s) && s.turn.value.nativeId.Some? && note.Started?
    ensures var id := s.turn.value.nativeId.value;
            StaysOpen(s, AfterStarted(With(s, ProveStarted(s.turn.value, id, exact)), id, note))
  {
    hide Admits;
  }

  lemma ProgressStaysOpen(s: State, note: Note)
    requires Bound(s)
    ensures StaysOpen(s, OnProgress(s, note))
  {
    hide Heard;
    var t, heard := s.turn.value, Heard(s.turn.value, note);
    assert Hear(t, note) == t.(seenItems := heard.0, allAgentText := heard.1, finalText := heard.2);
  }

  lemma UsageStaysOpen(s: State, turnParam: Option<Id>, reading: Option<nat>)
    requires Bound(s)
    ensures StaysOpen(s, OnTokenUsage(s, turnParam, reading))
  {}

  lemma HeldNoteStaysOpen(s: State, note: Note)
    requires Bound(s) && !note.Completed?
    requires note.Started? ==> NoteId(note.turnParam, note.rec) == s.turn.value.nativeId
    ensures StaysOpen(s, OnNote(s, note, true))
  {
    hide OnStarted, OnProgress, OnTokenUsage;
    if note.Started? { OwnStartStaysOpen(s, note.turnParam, note.rec); }
    else if note.TokenUsage? { UsageStaysOpen(s, note.turnParam, note.reading); }
    else { ProgressStaysOpen(s, note); }
  }

  lemma {:induction false} ReplayStaysOpen(s: State, notes: seq<Note>)
    requires Bound(s) && NoCompletions(notes)
    ensures StaysOpen(s, Replay(s, notes))
    decreases |notes|
  {
    if notes != [] {
      hide OnNote;
      var note := notes[0];
      var id := if note.Started? || note.Completed? then NoteId(note.turnParam, note.rec) else note.turnParam;
      if id == s.turn.value.nativeId { HeldNoteStaysOpen(s, note); }
      var s1 := if id == s.turn.value.nativeId then OnNote(s, note, true) else s;
      ReplayStaysOpen(s1, notes[1..]);
    }
  }

  lemma SettleFromProvesNothing(s: State, pendings: seq<NativeTurn>)
    requires s.turn.Some?
    ensures Unproved(s, SettleFrom(s, pendings))
  {
    hide CompleteSingle, ReportConflict, StartSingleLookup, ExactPendings, NativePendings;
    var t := s.turn.value;
    var exact := ExactPendings(pendings, t.clientId);
    var native := NativePendings(pendings, t.nativeId);
    if |exact| == 1 { CompleteSingleProvesNothing(s, exact[0].0, Some(exact[0].1)); }
    else if |exact| > 1 || |native| > 1 { ReportConflictKeepsBinding(s, ManyPreResponse); }
    else if |native| == 1 && t.kind != SteerRequest { CompleteSingleProvesNothing(s, native[0], None); }
    else { SingleLookupProvesNothing(s, |native| != 1); }
  }

  lemma ResumeKeepsBinding(s: State)
    requires s.turn.Some?
    ensures KeepsBinding(s, ResumeBuffered(s))
  {
    hide RouteBuffered;
    if CanResume(s) { RouteBufferedKeepsBinding(s, s.turn.value.terminal.value); }
  }

  lemma SettleAfterResponseKeepsBinding(s: State)
    requires s.turn.Some?
    ensures KeepsBinding(s, SettleAfterResponse(s))
  {
    hide ResumeBuffered, SettleSteered;
    ResumeKeepsBinding(s);
    if SettlesBuffered(s) { SettleSteeredKeepsBinding(ResumeBuffered(s), s.turn.value.terminal.value); }
  }

  lemma AfterAcceptProves(s: State)
    requires Bound(s) && NoCompletions(s.turn.value.pendingNotes)
    ensures var s' := AfterAccept(s);
            && s'.turn.Some? && !s'.fenced
            && (s'.turn.value.canonical == s.turn.value.canonical
                || (s.turn.value.nativeId.Some? && s'.turn.value.canonical == s.turn.value.nativeId))
  {
    hide SettleAfterResponse, Replay, SettleFrom, TryAdmitSteer;
    var s1 := SettleAfterResponse(s);
    SettleAfterResponseKeepsBinding(s);
    var t1 := s1.turn.value;
    var s2 := With(s1, t1.(pendingNotes := []));
    ReplayStaysOpen(s2, t1.pendingNotes);
    var s3 := ReplayNotes(s1);
    var s4 := With(s3, s3.turn.value.(pendingCompletions := []));
    SettleFromProvesNothing(s4, s3.turn.value.pendingCompletions);
    AdmissionProvesNothing(SettlePendings(s3));
  }

  lemma AdmissionProvesNothing(s: State)
    requires s.turn.Some?
    ensures Unproved(s, TryAdmitSteer(s))
  {
    hide Admits;
  }

  /** A root under request: its canonical id, if it has one, is proved exactly. */
  predicate Requested(s: State) {
    && s.pc == AwaitResponse && !s.fenced && s.turn.Some?
    && !s.turn.value.requestAccepted
    && (s.turn.value.canonical.Some? ==> ExactProof(s.turn.value))
    && NoCompletions(s.turn.value.pendingNotes)
  }

  lemma AcceptanceBinds(s: State, respId: Option<Id>)
    requires Requested(s) && !ContradictsProof(s.turn.value, respId)
    ensures var s1 := AcceptRoot(s, respId);
            && Bound(s1) && s1.turn.value.nativeId == respId && s1.pc == AwaitDone
            && s1.turn.value.pendingNotes == s.turn.value.pendingNotes
            && s1.turn.value.canonical
               == if respId.Some? && !s.turn.value.completed then respId else s.turn.value.canonical
  {}

  lemma ResponseProves(s: State, responseId: Option<Id>)
    requires s.turn.Some? && !s.fenced && (s.pc == AwaitResponse ==> Requested(s))
    ensures Settled(s, RootResponse(responseId))
  {
    hide AcceptRoot, AfterAccept;
    if s.pc == AwaitResponse {
      var respId := if responseId.Some? then responseId else s.turn.value.nativeId;
      if ContradictsProof(s.turn.value, respId) {
        FencedRootKeepsTurn(s);
      } else {
        AcceptanceBinds(s, respId);
        AfterAcceptProves(AcceptRoot(s, respId));
      }
    }
  }

  lemma FencedRootKeepsTurn(s: State)
    requires s.turn.Some?
    ensures FenceRoot(s).turn.Some? && FenceRoot(s).fenced
  {}

  // ---- Everything else -------------------------------------------------------------------------

  predicate SameCanonical(s: State, s': State) {
    s.turn.Some? && s'.turn.Some? && s'.turn.value.canonical == s.turn.value.canonical
  }

  lemma JoinProvesNothing(s: State, rpc: SteerRpc)
    requires s.turn.Some? && |s.queue| > 0
    ensures SameCanonical(s, JoinGroup(s, rpc)) && JoinGroup(s, rpc).turn.Some?
  {}

  lemma SteerResponseProvesNothing(s: State, steeredId: Option<Id>)
    requires s.turn.Some?
    ensures SameCanonical(s, OnSteerResponse(s, steeredId))
  {
    hide JoinGroup, ResumeBuffered, TryAdmitSteer, CanResume;
    if SteerAccepted(s, steeredId) {
      var s1 := JoinGroup(s, s.steer.value);
      JoinProvesNothing(s, s.steer.value);
      ResumeKeepsBinding(s1);
      AdmissionProvesNothing(s1);
    }
  }

  lemma SteerErrorProvesNothing(s: State, refusal: Failure)
    requires s.turn.Some?
    ensures SameCanonical(s, OnSteerError(s, refusal))
  {
    hide RouteBuffered;
    var s1 := CloseSteering(s);
    if s1.turn.value.terminal.Some? { RouteBufferedKeepsBinding(s1, s1.turn.value.terminal.value); }
  }

  lemma RootErrorProvesNothing(s: State, failure: Failure)
    requires s.turn.Some?
    ensures SameCanonical(s, OnRootError(s, failure))
  {}

  lemma SingleScanProvesNothing(s: State, candidates: seq<NativeTurn>, failed: bool, expired: bool)
    requires s.turn.Some? && s.turn.value.lookup.SingleLookup? && s.turn.value.clientId.Some?
    ensures Unproved(s, OnSingleScanned(s, candidates, failed, expired))
  {
    hide ReportConflict, CompleteSingle, ExactIndexes, SingleMatches;
    var s1 := FinishLookup(s);
    assert Unproved(s, s1);
    forall reason ensures Unproved(s1, ReportConflict(s1, reason)) { ReportConflictKeepsBinding(s1, reason); }
    var matches := SingleMatches(candidates, s.turn.value.clientId.value);
    if |matches| == 1 { CompleteSingleProvesNothing(s1, matches[0].0, Some(matches[0].1)); }
  }

  lemma AdoptMatchProves(s: State, rec: NativeTurn, lastIndex: nat)
    requires s.turn.Some? && s.turn.value.lookup == GroupLookup && !s.turn.value.completed
    ensures var s' := AdoptMatch(FinishLookup(s), rec, lastIndex);
            s'.fenced == s.fenced && (SameCanonical(s, s') || SettledByHistory(s, s'))
  {
    AdoptMatchSameLedger(FinishLookup(s), rec, lastIndex);
    if rec.id.Some? { AdoptNamedSettles(s, rec, lastIndex); }
  }

  lemma GroupScanProves(s: State, candidates: seq<NativeTurn>, failed: bool)
    requires s.turn.Some? && s.turn.value.lookup == GroupLookup
    ensures var s' := OnGroupScanned(s, candidates, failed);
            s'.fenced == s.fenced && (SameCanonical(s, s') || SettledByHistory(s, s'))
  {
    hide ReportConflict, AdoptMatch, GroupMatches, SettledByHistory;
    var s1 := FinishLookup(s);
    forall reason ensures Unproved(s1, ReportConflict(s1, reason)) { ReportConflictKeepsBinding(s1, reason); }
    var matches := GroupMatches(candidates, SentIds(s.turn.value.accepted));
    if !s.turn.value.completed && |matches| == 1 { AdoptMatchProves(s, matches[0].0, matches[0].1); }
  }

  lemma ScanProves(s: State, candidates: seq<NativeTurn>, failed: bool, expired: bool)
    requires s.turn.Some?
    ensures var s' := OnHistoryScanned(s, candidates, failed, expired);
            s'.fenced == s.fenced && (SameCanonical(s, s') || SettledByHistory(s, s'))
  {
    hide OnSingleScanned, OnGroupScanned, SettledByHistory;
    if s.turn.value.lookup.SingleLookup? && s.turn.value.clientId.Some? {
      SingleScanProvesNothing(s, candidates, failed, expired);
    } else if s.turn.value.lookup == GroupLookup {
      GroupScanProves(s, candidates, failed);
    }
  }

  lemma LoopProvesNothing(s: State, e: Event)
    requires Live(s) && !s.fenced && s.turn.Some? && IsLoopEvent(e)
    ensures var s' := Step(s, e);
            !s'.fenced && (s'.turn.Some? ==> s'.turn == s.turn)
  {
    LoopEventFrame(s, e);
    if e.TurnDone? { EmitGroupFrame(s, s.turn.value, 0); }
  }

  lemma OtherNotesProveNothing(s: State, note: Note)
    requires s.turn.Some? && !note.Started? && !note.Completed?
    ensures Unproved(s, OnNote(s, note, false))
  {
    hide OnProgress;
    ProgressProvesNothing(s, note);
  }

  lemma ProgressProvesNothing(s: State, note: Note)
    requires s.turn.Some?
    ensures Unproved(s, OnProgress(s, note))
  {
    hide Heard;
  }

  lemma RequestedRoot(s: State)
    requires Sound(s) && Identified(s) && !s.overlapped && !s.fenced && s.turn.Some? && s.pc == AwaitResponse
    ensures Requested(s)
  {}

  lemma ClaimDecides(s: State, e: Event)
    requires Sound(s) && Identified(s) && !s.overlapped && !s.fenced && s.turn.Some?
    requires e.RootResponse? || (e.Notify? && (e.note.Started? || e.note.Completed?))
    ensures Settled(s, e)
  {
    hide Settled;
    match e {
      case RootResponse(responseId) =>
        if s.pc == AwaitResponse { RequestedRoot(s); }
        ResponseProves(s, responseId);
      case Notify(Started(turnParam, rec)) => StartedProves(s, turnParam, rec);
      case Notify(Completed(turnParam, rec)) => CompletedProves(s, turnParam, rec);
    }
  }

  lemma NoClaimDecidesNothing(s: State, e: Event)
    requires Sound(s) && Identified(s) && !s.overlapped && !s.fenced && s.turn.Some?
    requires !e.RootResponse? && !(e.Notify? && (e.note.Started? || e.note.Completed?))
    ensures var s' := Step(s, e);
            && (s'.turn.Some? ==> SameCanonical(s, s') || SettledByHistory(s, s'))
            && (s'.fenced ==> e.SteerResponse? || e.SteerError? || e.RootError?)
  {
    hide SettledByHistory;
    if IsLoopEvent(e) {
      LoopProvesNothing(s, e);
    } else {
      match e {
        case RootError(failure) => RootErrorProvesNothing(s, failure);
        case SteerResponse(steeredId) => SteerResponseProvesNothing(s, steeredId);
        case SteerError(refusal) => SteerErrorProvesNothing(s, refusal);
        case Notify(note) => OtherNotesProveNothing(s, note);
        case HistoryScanned(candidates, failed, expired) => ScanProves(s, candidates, failed, expired);
      }
    }
  }

  /** The first proof wins, on every step of a turn: an event that claims a native id fences the
      generation exactly if another id was proved before, and otherwise proves the id of an
      open turn; without a claim the canonical id stays what it was, but for a history
      settlement, and only the unknown outcome of a request fences. */
  lemma FirstProofWins(s: State, e: Event)
    requires Sound(s) && Identified(s) && !s.overlapped && !s.fenced && s.turn.Some?
    ensures var t, s', claim := s.turn.value, Step(s, e), Claim(s, e);
            && (claim.Some? ==> (s'.fenced <==> Contradicts(t, claim.value)))
            && (claim.Some? && !s'.fenced && !t.completed ==> s'.turn.Some? && s'.turn.value.canonical == claim)
            && (claim.None? && s'.turn.Some? ==> s'.turn.value.canonical == t.canonical || SettledByHistory(s, s'))
            && (claim.None? && s'.fenced ==> e.SteerResponse? || e.SteerError? || e.RootError?)
  {
    hide Sound, Identified, SettledByHistory, Step;
    if e.RootResponse? || (e.Notify? && (e.note.Started? || e.note.Completed?)) {
      ClaimDecides(s, e);
    } else {
      NoClaimDecidesNothing(s, e);
    }
  }

  // ---- Proofs that are not taken as such ----------------------------------------------------------

  lemma SingleCompletionIsTaken(s: State, id: Option<Id>, rec: NativeTurn)
    requires s.turn.Some? && !s.turn.value.completed
    requires |ExactFor(rec, s.turn.value.clientId)| == 1 && !UpgradesToProof(s.turn.value, id)
    ensures OnSingleCompleted(s, s.turn.value, id, rec)
         == CompleteSingle(s, rec, Some(ExactFor(rec, s.turn.value.clientId)[0]))
  {
    assert With(s, s.turn.value) == s;
  }

  lemma GroupContradictionWaits(s: State, id: Option<Id>, rec: NativeTurn)
    requires s.turn.Some? && !s.turn.value.completed && id != s.turn.value.canonical
    ensures var t, s' := s.turn.value, OnGroupCompleted(s, s.turn.value, id, rec);
            && s'.fenced == s.fenced && s'.turn.Some? && s'.turn.value.canonical == t.canonical
            && !s'.turn.value.completed
            && (Steering(s, t) || t.startPending || s'.turn.value.lookup != NoLookup)
  {
    hide SettleSteered;
  }

  lemma TakenCompletionSettles(s: State, rec: NativeTurn, index: nat)
    requires s.turn.Some? && !s.turn.value.completed
    ensures var s' := CompleteSingle(s, rec, Some(index));
            && s'.fenced == s.fenced && s'.turn.Some? && s'.turn.value.canonical == s.turn.value.canonical
            && s'.turn.value.completed == rec.terminal
            && (rec.terminal ==>
                s'.turn.value.finalText == Rebuild(rec, index) && (rec.id.Some? ==> s'.turn.value.nativeId == rec.id))
  {
    hide Rebuild;
  }

  /** An exact turn/completed under another id than the canonical one, which no branch takes as a
      proof, does not fence. A group waits for its steer or its start, or is looked up. A turn
      without a group is settled with that completion's answer and under that completion's id,
      while its canonical id still names another turn. */
  lemma ContradictingCompletionIsLetThrough(s: State, turnParam: Option<Id>, rec: NativeTurn)
    requires Identified(s) && !s.fenced && s.turn.Some? && !s.turn.value.completed
    requires NoteId(turnParam, rec).Some? && Contradicts(s.turn.value, NoteId(turnParam, rec).value)
    requires |ExactFor(rec, s.turn.value.clientId)| == 1
    requires Claim(s, Notify(Completed(turnParam, rec))).None?
    ensures var e := Notify(Completed(turnParam, rec));
            var t, s' := s.turn.value, Step(s, e);
            && !s'.fenced && s'.turn.Some? && s'.turn.value.canonical == t.canonical
            && (InGroupMode(s, t) ==>
                !s'.turn.value.completed && (Steering(s, t) || t.startPending || s'.turn.value.lookup != NoLookup))
            && (!InGroupMode(s, t) ==>
                && s'.turn.value.completed == rec.terminal
                && (rec.terminal ==>
                    && s'.turn.value.finalText == Rebuild(rec, ExactFor(rec, t.clientId)[0])
                    && (rec.id.Some? ==> s'.turn.value.nativeId == rec.id)))
  {
    hide ExactFor, Rebuild, UpgradesToProof, OnGroupCompleted, OnSingleCompleted, CompleteSingle;
    var id := NoteId(turnParam, rec);
    var s1 := ClearNative(s, id);
    assert s1 == s.(nativeActive := s1.nativeActive);
    if InGroupMode(s, s.turn.value) {
      GroupContradictionWaits(s1, id, rec);
    } else {
      SingleCompletionIsTaken(s1, id, rec);
      TakenCompletionSettles(s1, rec, ExactFor(rec, s.turn.value.clientId)[0]);
    }
  }

  const OTHER := Record(11, [UserMessage(Some(1)), AgentMessage(true, "other")])

  lemma OtherAnswers()
    ensures ExactIndexes(OTHER, 1) == [0] && Rebuild(OTHER, 0) == Said("other")
  {
    SingleOccurrence(OTHER, 1, 0);
    assert OTHER.items[1..] == [AgentMessage(true, "other")];
  }

  const OTHER_RUN: seq<Event> :=
    [Ask("first", 1)] + ([ThreadReady] + ([RootResponse(Some(10))] + ([Notify(Completed(None, OTHER))] + [])))

  /** A run: the response proves native turn 10, and an exact completion of turn 11 settles it. */
  lemma OtherTurnSettles()
    ensures var s := Run(InitialState(CODEX), OTHER_RUN);
            && !s.fenced && !s.overlapped && s.turn.Some? && s.turn.value.completed
            && s.turn.value.canonical == Some(10) && s.turn.value.nativeId == Some(11)
            && s.turn.value.finalText == Said("other")
  {
    var s0 := InitialState(CODEX);
    FirstIsDequeued(s0);
    var s1 := s0.(pc := Dequeued(FIRST), inbound := [FIRST]);
    FirstBegins(s1);
    var s2 := s1.(pc := AwaitResponse, epochs := 1, turn := Some(FreshTurn(None)));
    FirstResponds(s2);
    var s3 := s2.(pc := AwaitDone, nativeActive := Some(10), turn := Some(RESPONDED));
    OtherSettlesResponded(s3);
    OtherRunEnds(s0, s1, s2, s3);
  }

  lemma OtherSettlesResponded(s: State)
    requires s.turn == Some(RESPONDED) && s.steer.None? && !s.fenced
    ensures var s' := Step(s, Notify(Completed(None, OTHER)));
            && s'.overlapped == s.overlapped && !s'.fenced
            && s'.turn == Some(RESPONDED.(finalText := Said("other"), nativeId := Some(11), completed := true))
  {
    OtherAnswers();
    SingleCompletionIsTaken(ClearNative(s, Some(11)), Some(11), OTHER);
  }

  lemma OtherRunEnds(s0: State, s1: State, s2: State, s3: State)
    requires s1 == Step(s0, Ask("first", 1)) && s2 == Step(s1, ThreadReady) && s3 == Step(s2, RootResponse(Some(10)))
    ensures Run(s0, OTHER_RUN) == Step(s3, Notify(Completed(None, OTHER)))
  {
    var e3 := [Notify(Completed(None, OTHER))] + [];
    var e2 := [RootResponse(Some(10))] + e3;
    RunCons(s0, Ask("first", 1), [ThreadReady] + e2);
    RunCons(s1, ThreadReady, e2);
    RunCons(s2, RootResponse(Some(10)), e3);
    RunCons(s3, Notify(Completed(None, OTHER)), []);
  }

  // ---- Completions buffered before the response ----------------------------------------------

  lemma {:induction false} NoExactPendings(pendings: seq<NativeTurn>, clientId: Option<Id>)
    requires forall i | 0 <= i < |pendings| :: |ExactFor(pendings[i], clientId)| != 1
    ensures ExactPendings(pendings, clientId) == []
    decreases |pendings|
  {
    if pendings != [] { NoExactPendings(pendings[1..], clientId); }
  }

  lemma {:induction false} NoNativePendings(pendings: seq<NativeTurn>, nativeId: Option<Id>)
    requires forall i | 0 <= i < |pendings| :: pendings[i].id != nativeId
    ensures NativePendings(pendings, nativeId) == []
    decreases |pendings|
  {
    if pendings != [] { NoNativePendings(pendings[1..], nativeId); }
  }

  /** None of the completions is the turn's, by client item or by native id. */
  predicate Foreign(pendings: seq<NativeTurn>, clientId: Option<Id>, nativeId: Option<Id>) {
    && pendings != []
    && forall i | 0 <= i < |pendings| :: |ExactFor(pendings[i], clientId)| != 1 && pendings[i].id != nativeId
  }

  /** A turn that only its own completion should settle. */
  predicate Undecided(t: Turn) {
    !t.completed && !t.conflictReported && t.lookup == NoLookup
  }

  lemma ForeignPendingsStartLookup(s: State, pendings: seq<NativeTurn>)
    requires s.turn.Some? && Undecided(s.turn.value)
    requires Foreign(pendings, s.turn.value.clientId, s.turn.value.nativeId)
    ensures SettleFrom(s, pendings) == StartSingleLookup(s, true)
  {
    NoExactPendings(pendings, s.turn.value.clientId);
    NoNativePendings(pendings, s.turn.value.nativeId);
  }

  lemma KeepPendingNeedsClientId(s: State)
    requires s.turn.Some? && Undecided(s.turn.value)
    ensures var s' := KickAfterResponse(StartSingleLookup(s, true));
            var t := s.turn.value;
            && s'.turn.Some? && s'.fenced == s.fenced
            && (s'.turn.value.completed <==> t.clientId.None?)
            && (t.clientId.Some? ==> s'.turn.value.lookup == SingleLookup(true, t.nativeId.Some?))
            && (t.clientId.None? ==>
                s'.turn.value.finalText == IdentityConflict(NoClientId) && s'.turn.value.allAgentText == "")
  {}

  /** Completions of other turns that were buffered before the root's response leave the accepted
      turn pending, under a lookup that waits for it while it may still be running, exactly if
      its input has a client id. Without one they settle it at once as an identity error. */
  lemma ForeignCompletionsSettleExactly(s: State, responseId: Option<Id>)
    requires Requested(s) && Undecided(s.turn.value) && !s.turn.value.completionSeen
    requires var respId := if responseId.Some? then responseId else s.turn.value.nativeId;
             && !ContradictsProof(s.turn.value, respId)
             && Foreign(s.turn.value.pendingCompletions, s.turn.value.clientId, respId)
    ensures var t := s.turn.value;
            var respId := if responseId.Some? then responseId else t.nativeId;
            var s' := Step(s, RootResponse(responseId));
            && s'.turn.Some? && !s'.fenced
            && (s'.turn.value.completed <==> t.clientId.None?)
            && (t.clientId.Some? ==> s'.turn.value.lookup == SingleLookup(true, respId.Some?))
            && (t.clientId.None? ==>
                s'.turn.value.finalText == IdentityConflict(NoClientId) && s'.turn.value.allAgentText == "")
  {
    hide Replay, SettleFrom, StartSingleLookup, KickAfterResponse, Foreign;
    var respId := if responseId.Some? then responseId else s.turn.value.nativeId;
    var s1 := AcceptRoot(s, respId);
    AcceptanceBinds(s, respId);
    AcceptanceDecidesNothing(s, respId);
    var s2 := With(s1, s1.turn.value.(pendingNotes := []));
    ReplayStaysOpen(s2, s1.turn.value.pendingNotes);
    var s3 := ReplayNotes(s1);
    var s4 := With(s3, s3.turn.value.(pendingCompletions := []));
    ForeignPendingsStartLookup(s4, s3.turn.value.pendingCompletions);
    KeepPendingNeedsClientId(s4);
    assert Step(s, RootResponse(responseId)) == AfterAccept(s1);
  }

  lemma AcceptanceDecidesNothing(s: State, respId: Option<Id>)
    requires s.turn.Some? && Undecided(s.turn.value) && !s.turn.value.completionSeen
    ensures var s1 := AcceptRoot(s, respId);
            && s1.turn.Some? && Undecided(s1.turn.value) && SettleAfterResponse(s1) == s1
            && s1.turn.value.clientId == s.turn.value.clientId
            && s1.turn.value.pendingCompletions == s.turn.value.pendingCompletions
  {}

  const STALE := Record(11, [])
  const LINE_TURN := NewTurn(1, None, Dispatch(PLAIN, None), None, false)

  const LINE_RUN: seq<Event> :=
    [PlainLine("plain")] + ([ThreadReady] + ([Notify(Completed(None, STALE))] + ([RootResponse(Some(10))] + [])))

  lemma LineIsBuffered(s: State)
    requires s.turn == Some(LINE_TURN) && s.steer.None? && s.nativeActive.None?
    ensures Step(s, Notify(Completed(None, STALE))) == s.(turn := Some(LINE_TURN.(pendingCompletions := [STALE])))
  {
    assert [] + [STALE] == [STALE];
  }

  /** A run: a late completion of turn 11 settles a plain line that runs as turn 10. */
  lemma StaleCompletionSettlesLine()
    ensures var s := Run(InitialState(CODEX), LINE_RUN);
            && !s.fenced && s.turn.Some? && s.turn.value.completed
            && s.turn.value.finalText == IdentityConflict(NoClientId)
  {
    var s0 := InitialState(CODEX);
    PlainIsDequeued(s0);
    var s1 := s0.(pc := Dequeued(PLAIN), inbound := [PLAIN]);
    var s2 := s1.(pc := AwaitResponse, epochs := 1, turn := Some(LINE_TURN));
    assert Step(s1, ThreadReady) == s2;
    LineIsBuffered(s2);
    var s3 := s2.(turn := Some(LINE_TURN.(pendingCompletions := [STALE])));
    ForeignCompletionsSettleExactly(s3, Some(10));
    LineRunEnds(s0, s1, s2, s3);
  }

  lemma LineRunEnds(s0: State, s1: State, s2: State, s3: State)
    requires s1 == Step(s0, PlainLine("plain")) && s2 == Step(s1, ThreadReady)
    requires s3 == Step(s2, Notify(Completed(None, STALE)))
    ensures Run(s0, LINE_RUN) == Step(s3, RootResponse(Some(10)))
  {
    var e3 := [RootResponse(Some(10))] + [];
    var e2 := [Notify(Completed(None, STALE))] + e3;
    RunCons(s0, PlainLine("plain"), [ThreadReady] + e2);
    RunCons(s1, ThreadReady, e2);
    RunCons(s2, Notify(Completed(None, STALE)), e3);
    RunCons(s3, RootResponse(Some(10)), []);
  }
}
