/** The client id under which an input is sent, as a root or as a follow-up steer. The app-server
    echoes it in the records by which a group is attributed. */
module RunnerDispatch {
  import opened Prelude
  import opened NativeTurns
  import opened RunnerTypes
  import opened RunnerSteps
  import opened RunnerIdentity
  import opened RunnerInvariants
  import opened RunnerRuns
  import opened RunnerGuarantees
  import opened RunnerDelivery

  // ---- The id an input is sent under -------------------------------------------------------

  /** A structured input with a reply id, sent to a codex that takes client ids while the structured
      form is not disabled. */
  predicate TakesReplyId(input: Input, disabled: bool, cfg: Config) {
    input.sidecar.Some? && !disabled && cfg.clientIds && input.replyId.Some?
  }

  /** The dispatch carries its input's reply id if it may, else the sidecar's id; a plain input
      carries none. */
  predicate Named(d: Dispatch, disabled: bool, cfg: Config) {
    && (TakesReplyId(d.input, disabled, cfg) ==> d.clientId == d.input.replyId)
    && (d.input.sidecar.Some? && !TakesReplyId(d.input, disabled, cfg) ==> d.clientId == d.input.sidecar.value.clientId)
    && (d.input.sidecar.None? ==> d.clientId.None?)
  }

  /** Any steer that goes out between the two states carries the id its input is to be sent under. */
  predicate Names(s: State, s': State) {
    && s'.cfg == s.cfg && s'.cleanUnsupported == s.cleanUnsupported
    && (s'.steer.Some? && s'.steer != s.steer ==> Named(s'.steer.value.dispatch, s.cleanUnsupported, s.cfg))
  }

  lemma NamesThen(s: State, s1: State, s2: State)
    requires Names(s, s1) && Names(s1, s2)
    ensures Names(s, s2)
  {
    hide Named;
  }

  lemma LedgerNames(s: State, s': State)
    requires SameLedger(s, s')
    ensures Names(s, s')
  {}

  lemma AdmissionNames(s: State)
    ensures Names(s, TryAdmitSteer(s))
  {
    hide Admits;
  }

  // ---- Settlements, lookups and notifications ------------------------------------------------

  lemma SettlementsName(s: State, rec: NativeTurn, index: Option<nat>, reason: Reason)
    requires s.turn.Some?
    ensures Names(s, ReportConflict(s, reason)) && Names(s, CompleteSingle(s, rec, index)) && Names(s, FenceTurn(s))
  {
    hide Rebuild, Named;
  }

  lemma LookupsName(s: State, keepPending: bool)
    requires s.turn.Some?
    ensures Names(s, StartSingleLookup(s, keepPending)) && Names(s, StartGroupLookup(s)) && Names(s, FinishLookup(s))
  {
    hide ReportConflict, Named;
    SettlementsName(s, NativeTurn(None, false, false, [], None), None, NoClientId);
  }

  lemma SettleSteeredNames(s: State, rec: NativeTurn)
    requires s.turn.Some?
    ensures Names(s, SettleSteered(s, rec)) && Names(s, RouteBuffered(s, rec))
  {
    hide ReportConflict, StartGroupLookup, VerifyGroup, Rebuild, Named;
    forall reason ensures Names(s, ReportConflict(s, reason)) { SettlementsName(s, rec, None, reason); }
    LookupsName(s, false);
  }

  lemma ResumeNames(s: State)
    ensures Names(s, ResumeBuffered(s))
  {
    hide RouteBuffered, Named;
    if CanResume(s) { SettleSteeredNames(s, s.turn.value.terminal.value); }
  }

  lemma StartedNames(s: State, turnParam: Option<Id>, rec: NativeTurn, replayed: bool)
    ensures Names(s, OnStarted(s, turnParam, rec, replayed))
  {
    hide OnStartedFor, Named;
    var id := NoteId(turnParam, rec);
    if id.Some? && s.turn.Some? {
      StartedForNames(s, id.value, turnParam, rec);
      StartedForNames(s.(nativeActive := id), id.value, turnParam, rec);
    }
  }

  lemma StartedForNames(s: State, id: Id, turnParam: Option<Id>, rec: NativeTurn)
    requires s.turn.Some?
    ensures Names(s, OnStartedFor(s, s.turn.value, id, turnParam, rec))
  {
    hide ExactFor, AfterStarted, FenceTurn, Named;
    var s1 := With(s, ProveStarted(s.turn.value, id, |ExactFor(rec, s.turn.value.clientId)| == 1));
    var s2 := With(s, s.turn.value);
    SettlementsName(s2, rec, None, NoMatch);
    AfterStartedNames(s1, id, Started(turnParam, rec));
    NamesThen(s, s1, AfterStarted(s1, id, Started(turnParam, rec)));
    NamesThen(s, s2, FenceTurn(s2));
  }

  lemma AfterStartedNames(s: State, id: Id, note: Note)
    requires s.turn.Some? && note.Started?
    ensures Names(s, AfterStarted(s, id, note))
  {
    hide TryAdmitSteer, ExactProof, HoldsStart, Named;
    var s2 := With(s, s.turn.value.(serverStarted := true));
    AdmissionNames(s2);
    NamesThen(s, s2, TryAdmitSteer(s2));
  }

  lemma KickNames(s: State)
    ensures Names(s, SettleState(s)) && Names(s, KickDrain(s)) && Names(s, EndOfBody(s))
  {
    hide GateCloses, Named;
  }

  lemma GroupCompletionNames(s: State, id: Option<Id>, rec: NativeTurn)
    requires s.turn.Some?
    ensures Names(s, OnGroupCompleted(s, s.turn.value, id, rec))
  {
    hide SettleSteered, StartGroupLookup, Named;
    var s1 := With(s, HoldCompletion(s.turn.value, id, rec));
    SettleSteeredNames(s1, rec);
    LookupsName(s1, false);
    NamesThen(s, s1, SettleSteered(s1, rec));
    NamesThen(s, s1, StartGroupLookup(s1));
  }

  lemma SingleCompletionNames(s: State, id: Option<Id>, rec: NativeTurn)
    requires s.turn.Some?
    ensures Names(s, OnSingleCompleted(s, s.turn.value, id, rec))
  {
    hide ExactFor, CompleteSingle, StartSingleLookup, UpgradeByCompletion, Names;
    assert With(s, s.turn.value) == s;
    var exact := ExactFor(rec, s.turn.value.clientId);
    BufferNames(s, rec);
    if id.Some? { UpgradeNames(s, id.value, rec); }
    SettlementsName(s, rec, if |exact| == 1 then Some(exact[0]) else None, NoMatch);
    SettlementsName(s, rec, None, NoMatch);
    LookupsName(s, false);
  }

  lemma BufferNames(s: State, rec: NativeTurn)
    requires s.turn.Some?
    ensures Names(s, With(s, s.turn.value.(pendingCompletions := s.turn.value.pendingCompletions + [rec])))
  {}

  lemma UpgradeNames(s: State, id: Id, rec: NativeTurn)
    requires s.turn.Some?
    ensures Names(s, UpgradeByCompletion(s, id, rec))
  {
    hide Named;
  }

  lemma CompletionNames(s: State, turnParam: Option<Id>, rec: NativeTurn)
    ensures Names(s, OnCompleted(s, turnParam, rec))
  {
    hide OnGroupCompleted, OnSingleCompleted, SettleState, KickDrain, InGroupMode, Named;
    var id := NoteId(turnParam, rec);
    var s1 := ClearNative(s, id);
    assert s1 == s.(nativeActive := s1.nativeActive);
    if s1.turn.Some? {
      GroupCompletionNames(s1, id, rec);
      SingleCompletionNames(s1, id, rec);
    } else {
      KickNames(s1);
      KickNames(SettleState(s1));
      NamesThen(s1, SettleState(s1), KickDrain(SettleState(s1)));
    }
    NamesThen(s, s1, OnCompleted(s, turnParam, rec));
  }

  lemma NoteNames(s: State, note: Note, replayed: bool)
    ensures Names(s, OnNote(s, note, replayed))
  {
    hide OnStarted, OnCompleted, Hear, Named;
    match note {
      case Started(turnParam, rec) => StartedNames(s, turnParam, rec, replayed);
      case Completed(turnParam, rec) => CompletionNames(s, turnParam, rec);
      case _ =>
    }
  }

  // ---- Requests and lookups ----------------------------------------------------------------------

  lemma {:induction false} ReplayNames(s: State, notes: seq<Note>)
    ensures Names(s, Replay(s, notes))
    decreases |notes|
  {
    hide OnNote, Names;
    if notes == [] || s.turn.None? {
      LedgerNames(s, s);
    } else {
      var note := notes[0];
      var id := if note.Started? || note.Completed? then NoteId(note.turnParam, note.rec) else note.turnParam;
      var s1 := if id == s.turn.value.nativeId then OnNote(s, note, true) else s;
      LedgerNames(s, s);
      NoteNames(s, note, true);
      ReplayNames(s1, notes[1..]);
      NamesThen(s, s1, Replay(s1, notes[1..]));
    }
  }

  lemma SettleAfterResponseNames(s: State)
    ensures Names(s, SettleAfterResponse(s))
  {
    hide SettleSteered, ResumeBuffered, SettlesBuffered, Names;
    ResumeNames(s);
    var s1 := ResumeBuffered(s);
    if SettlesBuffered(s) && s1.turn.Some? {
      TerminalIsHeld(s);
      SettleSteeredNames(s1, s.turn.value.terminal.value);
      NamesThen(s, s1, SettleAfterResponse(s));
    }
  }

  lemma TerminalIsHeld(s: State)
    requires SettlesBuffered(s)
    ensures s.turn.Some? && s.turn.value.terminal.Some?
  {}

  lemma SettleFromNames(s: State, pendings: seq<NativeTurn>)
    requires s.turn.Some?
    ensures Names(s, SettleFrom(s, pendings))
  {
    hide CompleteSingle, ReportConflict, StartSingleLookup, ExactPendings, NativePendings, Names;
    var t := s.turn.value;
    var exact := ExactPendings(pendings, t.clientId);
    var native := NativePendings(pendings, t.nativeId);
    LedgerNames(s, s);
    LookupsName(s, false);
    LookupsName(s, true);
    if |exact| == 1 { SettlementsName(s, exact[0].0, Some(exact[0].1), ManyPreResponse); }
    else if |native| == 1 { SettlementsName(s, native[0], None, ManyPreResponse); }
    else { SettlementsName(s, NativeTurn(None, false, false, [], None), None, ManyPreResponse); }
    if |exact| > 1 { SettlementsName(s, exact[0].0, None, ManyPreResponse); }
  }

  lemma AfterAcceptNames(s: State)
    ensures Names(s, AfterAccept(s))
  {
    hide SettleAfterResponse, Replay, SettleFrom, TryAdmitSteer, Names;
    var s1 := SettleAfterResponse(s);
    SettleAfterResponseNames(s);
    var s2 := ReplayNotes(s1);
    if s1.turn.Some? {
      var s0 := With(s1, s1.turn.value.(pendingNotes := []));
      LedgerNames(s1, s0);
      ReplayNames(s0, s1.turn.value.pendingNotes);
      NamesThen(s1, s0, s2);
      NamesThen(s, s1, s2);
    }
    var s3 := SettlePendings(s2);
    if s2.turn.Some? {
      var s0 := With(s2, s2.turn.value.(pendingCompletions := []));
      LedgerNames(s2, s0);
      SettleFromNames(s0, s2.turn.value.pendingCompletions);
      NamesThen(s2, s0, s3);
      NamesThen(s, s2, s3);
    }
    AdmissionNames(s3);
    NamesThen(s, s3, TryAdmitSteer(s3));
  }

  lemma ResponseNames(s: State, responseId: Option<Id>)
    ensures Names(s, OnRootResponse(s, responseId))
  {
    hide AfterAccept, AcceptRoot, FenceRoot, Names;
    LedgerNames(s, s);
    if s.pc == AwaitResponse && s.turn.Some? {
      var respId := if responseId.Some? then responseId else s.turn.value.nativeId;
      AcceptanceNames(s, respId);
      AfterAcceptNames(AcceptRoot(s, respId));
      NamesThen(s, AcceptRoot(s, respId), AfterAccept(AcceptRoot(s, respId)));
    }
  }

  lemma AcceptanceNames(s: State, respId: Option<Id>)
    requires s.turn.Some?
    ensures Names(s, AcceptRoot(s, respId)) && Names(s, FenceRoot(s))
  {
    hide Named;
  }

  lemma SteerResponseNames(s: State, steeredId: Option<Id>)
    ensures Names(s, OnSteerResponse(s, steeredId))
  {
    hide ResumeBuffered, TryAdmitSteer, CanResume, Named;
    if SteerAccepted(s, steeredId) {
      var s1 := JoinGroup(s, s.steer.value);
      ResumeNames(s1);
      AdmissionNames(s1);
      NamesThen(s, s1, OnSteerResponse(s, steeredId));
    }
  }

  lemma SteerErrorNames(s: State, refusal: Failure)
    ensures Names(s, OnSteerError(s, refusal))
  {
    hide RouteHeld, FenceSteer, CloseSteering, Named;
    SteerGoneNames(s);
    if s.steer.Some? { SteerFencedNames(s, s.steer.value.epoch); }
    if s.turn.Some? { RefusalNames(s); }
  }

  lemma SteerGoneNames(s: State)
    ensures Names(s, s.(steer := None))
  {}

  lemma SteerFencedNames(s: State, epoch: nat)
    ensures Names(s, FenceSteer(s.(steer := None), epoch))
  {
    hide Named;
  }

  lemma RefusalNames(s: State)
    requires s.turn.Some?
    ensures Names(s, RouteHeld(CloseSteering(s)))
  {
    hide RouteBuffered, Named;
    var s1 := CloseSteering(s);
    if s1.turn.value.terminal.Some? {
      SettleSteeredNames(s1, s1.turn.value.terminal.value);
      NamesThen(s, s1, RouteHeld(s1));
    }
  }

  lemma SingleScanNames(s: State, candidates: seq<NativeTurn>, failed: bool, expired: bool)
    requires s.turn.Some? && s.turn.value.lookup.SingleLookup? && s.turn.value.clientId.Some?
    ensures Names(s, OnSingleScanned(s, candidates, failed, expired))
  {
    hide ReportConflict, CompleteSingle, ExactIndexes, SingleMatches, Names;
    var s1 := FinishLookup(s);
    LookupsName(s, false);
    LedgerNames(s, s);
    forall reason ensures Names(s, ReportConflict(s1, reason)) {
      SettlementsName(s1, NativeTurn(None, false, false, [], None), None, reason);
      NamesThen(s, s1, ReportConflict(s1, reason));
    }
    var matches := SingleMatches(candidates, s.turn.value.clientId.value);
    if |matches| == 1 {
      SettlementsName(s1, matches[0].0, Some(matches[0].1), NoMatch);
      NamesThen(s, s1, CompleteSingle(s1, matches[0].0, Some(matches[0].1)));
    }
  }

  lemma GroupScanNames(s: State, candidates: seq<NativeTurn>, failed: bool)
    requires s.turn.Some? && s.turn.value.lookup == GroupLookup
    ensures Names(s, OnGroupScanned(s, candidates, failed))
  {
    hide ReportConflict, AdoptMatch, GroupMatches, Names;
    var s1 := FinishLookup(s);
    LookupsName(s, false);
    forall reason ensures Names(s, ReportConflict(s1, reason)) {
      SettlementsName(s1, NativeTurn(None, false, false, [], None), None, reason);
      NamesThen(s, s1, ReportConflict(s1, reason));
    }
    var matches := GroupMatches(candidates, SentIds(s.turn.value.accepted));
    if |matches| == 1 {
      AdoptMatchSameLedger(s1, matches[0].0, matches[0].1);
      LedgerNames(s1, AdoptMatch(s1, matches[0].0, matches[0].1));
      NamesThen(s, s1, AdoptMatch(s1, matches[0].0, matches[0].1));
    }
  }

  lemma ScanNames(s: State, candidates: seq<NativeTurn>, failed: bool, expired: bool)
    ensures Names(s, OnHistoryScanned(s, candidates, failed, expired))
  {
    hide OnSingleScanned, OnGroupScanned, Names;
    LedgerNames(s, s);
    if s.turn.Some? && s.turn.value.lookup.SingleLookup? && s.turn.value.clientId.Some? {
      SingleScanNames(s, candidates, failed, expired);
    } else if s.turn.Some? && s.turn.value.lookup == GroupLookup {
      GroupScanNames(s, candidates, failed);
    }
  }

  // ---- Every step -----------------------------------------------------------------------------------

  lemma LoopNames(s: State, e: Event)
    requires IsLoopEvent(e)
    ensures Names(s, Step(s, e))
  {
    hide TryAdmitSteer, KickDrain, EndOfBody, Named;
    match e {
      case Framed(content, sidecar, replyId, steerable) =>
        var s1 := Receive(s, content, sidecar, replyId, steerable);
        AdmissionNames(s1);
        KickNames(TryAdmitSteer(s1));
        NamesThen(s1, TryAdmitSteer(s1), Step(s, e));
        NamesThen(s, s1, Step(s, e));
      case PlainLine(line) =>
        KickNames(Receive(s, line, None, None, false));
      case ThreadFailed(message) => if s.pc.Dequeued? { FailureNames(s, s.pc.input, message); }
      case TurnDone => if s.turn.Some? { EmitGroupFrame(s, s.turn.value, 0); }
      case DrainResumed =>
        KickNames(s);
        if s.pc.Threw? && s.turn.Some? && |s.turn.value.accepted| > 0 {
          FailureNames(s, s.turn.value.accepted[0].input, s.pc.message);
        }
      case ControlReaccepted => KickNames(s);
      case _ =>
    }
  }

  lemma FailureNames(s: State, input: Input, message: string)
    ensures Names(s, AnswerFailure(s, input, message))
  {
    hide EndOfBody, Named;
    var s1 := FailureFinal(s, input, message);
    KickNames(s1);
    NamesThen(s, s1, EndOfBody(s1));
  }

  /** A follow-up is sent under its own id: whatever event admits it, the steer that goes out carries
      the id its input is to be sent under at that moment. */
  lemma SteerIsNamed(s: State, e: Event)
    ensures var s' := Step(s, e);
            && s'.cfg == s.cfg && (s.cleanUnsupported ==> s'.cleanUnsupported)
            && (s'.steer.Some? && s'.steer != s.steer ==> Named(s'.steer.value.dispatch, s.cleanUnsupported, s.cfg))
  {
    hide Named;
    if IsLoopEvent(e) {
      LoopNames(s, e);
    } else {
      match e {
        case RootResponse(responseId) => ResponseNames(s, responseId);
        case RootError(failure) =>
        case SteerResponse(steeredId) => SteerResponseNames(s, steeredId);
        case SteerError(refusal) => SteerErrorNames(s, refusal);
        case Notify(note) => NoteNames(s, note, false);
        case HistoryScanned(candidates, failed, expired) => ScanNames(s, candidates, failed, expired);
      }
    }
  }

  /** A root is sent under its own id, and its turn and its group begin with that one dispatch. */
  lemma RootIsNamed(s: State)
    requires s.pc.Dequeued?
    ensures var s' := Step(s, ThreadReady);
            && s'.turn.Some? && |s'.turn.value.accepted| == 1
            && s'.turn.value.accepted[0].input == s.pc.input
            && s'.turn.value.clientId == s'.turn.value.accepted[0].clientId
            && Named(s'.turn.value.accepted[0], s.cleanUnsupported, s.cfg)
            && (s'.turn.value.rpc.structured <==> s.pc.input.sidecar.Some? && !s.cleanUnsupported && s.cfg.cleanInput)
            && Retries(s'.turn.value) == 0
  {}

  // ---- Groups on every run -----------------------------------------------------------------------------

  /** The dispatch was named while the structured form was enabled, or since it was disabled. */
  predicate NamedBy(d: Dispatch, s: State) {
    Named(d, false, s.cfg) || (s.cleanUnsupported && Named(d, true, s.cfg))
  }

  predicate EachNamed(s: State) {
    && (s.steer.Some? ==> NamedBy(s.steer.value.dispatch, s))
    && (s.turn.Some? ==> forall k | 0 <= k < |s.turn.value.accepted| :: NamedBy(s.turn.value.accepted[k], s))
  }

  lemma StaysNamed(s: State, s': State, d: Dispatch)
    requires NamedBy(d, s) && s'.cfg == s.cfg && (s.cleanUnsupported ==> s'.cleanUnsupported)
    ensures NamedBy(d, s')
  {
    hide Named;
  }

  /** The turn's group is that of before, grown by the steer that was out, or begins with its root. */
  predicate Grows(s: State, s': State) {
    s'.turn.Some? ==>
      || (s.turn.Some? && s'.turn.value.accepted == s.turn.value.accepted)
      || (s.turn.Some? && s.steer.Some? && s'.turn.value.accepted == s.turn.value.accepted + [s.steer.value.dispatch])
      || (|s'.turn.value.accepted| == 1 && NamedBy(s'.turn.value.accepted[0], s'))
  }

  lemma SteerEventGrows(s: State, e: Event)
    requires e.SteerResponse? || e.SteerError?
    ensures Grows(s, Step(s, e))
  {
    hide RouteHeld, AfterJoin, JoinGroup, NamedBy;
    if s.turn.Some? {
      if e.SteerResponse? { SteerResponseGrowsGroup(s, e.steeredId); } else { SteerErrorKeepsGroup(s, e.refusal); }
    } else if e.SteerResponse? && SteerAccepted(s, e.steeredId) {
      JoinGroupKeepsIdentity(s, s.steer.value);
      AfterJoinNoTurn(JoinGroup(s, s.steer.value), s.steer.value.epoch);
    }
  }

  lemma LoopGrows(s: State, e: Event)
    requires IsLoopEvent(e)
    ensures Grows(s, Step(s, e))
  {
    hide Named;
    if e.ThreadReady? {
      if s.pc.Dequeued? { RootIsNamed(s); }
    } else {
      LoopEventFrame(s, e);
    }
  }

  lemma CalmGrows(s: State, s': State)
    requires Calm(s, s') || SettledByHistory(s, s')
    ensures Grows(s, s')
  {
    hide NamedBy;
  }

  lemma StepGrows(s: State, e: Event)
    requires Identified(s)
    ensures Grows(s, Step(s, e))
  {
    hide Calm, Identified, SettledByHistory, Grows;
    var s' := Step(s, e);
    if IsLoopEvent(e) {
      LoopGrows(s, e);
    } else if e.SteerResponse? || e.SteerError? {
      SteerEventGrows(s, e);
    } else {
      match e {
        case RootResponse(responseId) => OnRootResponseCalm(s, responseId);
        case RootError(failure) => OnRootErrorSteady(s, failure);
        case Notify(note) => OnNoteSteady(s, note, false);
        case HistoryScanned(candidates, failed, expired) => OnHistoryScannedSteady(s, candidates, failed, expired);
      }
      CalmGrows(s, s');
    }
  }

  lemma StepKeepsNames(s: State, e: Event)
    requires Identified(s) && EachNamed(s)
    ensures EachNamed(Step(s, e))
  {
    hide Step, Identified, NamedBy;
    var s' := Step(s, e);
    SteerIsNamed(s, e);
    StepGrows(s, e);
    if s.steer.Some? { StaysNamed(s, s', s.steer.value.dispatch); }
    if s'.steer.Some? && s'.steer != s.steer { NewlyNamed(s, s', s'.steer.value.dispatch); }
    if s.turn.Some? && s'.turn.Some? {
      forall k | 0 <= k < |s.turn.value.accepted| ensures NamedBy(s.turn.value.accepted[k], s') {
        StaysNamed(s, s', s.turn.value.accepted[k]);
      }
    }
  }

  lemma NewlyNamed(s: State, s': State, d: Dispatch)
    requires Named(d, s.cleanUnsupported, s.cfg) && s'.cfg == s.cfg && (s.cleanUnsupported ==> s'.cleanUnsupported)
    ensures NamedBy(d, s')
  {
    hide Named;
  }

  lemma {:induction false} RunNames(s: State, events: seq<Event>)
    requires Identified(s) && EachNamed(s)
    ensures EachNamed(Run(s, events)) && Run(s, events).cfg == s.cfg
    decreases |events|
  {
    if events != [] {
      hide Step, Identified, EachNamed;
      StepKeepsNames(s, events[0]);
      StepKeepsIdentity(s, events[0]);
      SteerIsNamed(s, events[0]);
      RunNames(Step(s, events[0]), events[1..]);
    }
  }

  /** On every run, overlapped or not, each member of a group was sent under the id that its input
      was to be sent under when it went out. */
  lemma MembersAreNamed(cfg: Config, events: seq<Event>, k: nat)
    requires var s := Run(InitialState(cfg), events); s.turn.Some? && k < |s.turn.value.accepted|
    ensures var s := Run(InitialState(cfg), events);
            var d := s.turn.value.accepted[k];
            Named(d, false, cfg) || (s.cleanUnsupported && Named(d, true, cfg))
  {
    hide Run, Named;
    InitialSound(cfg);
    RunNames(InitialState(cfg), events);
  }

  lemma {:induction false} SentIdsArePointwise(group: seq<Dispatch>)
    requires forall k | 0 <= k < |group| :: group[k].clientId.Some?
    ensures |SentIds(group)| == |group| && forall k | 0 <= k < |group| :: SentIds(group)[k] == group[k].clientId.value
    decreases |group|
  {
    if group != [] {
      assert group[0].clientId.Some?;
      assert forall k | 0 <= k < |group[1..]| :: group[1..][k] == group[k + 1];
      SentIdsArePointwise(group[1..]);
    }
  }

  /** On a codex that takes client ids, as long as the structured form is not disabled: the ids by
      which a group of structured inputs is attributed are their reply ids, all of them, in order. */
  lemma GroupSendsReplyIds(cfg: Config, events: seq<Event>)
    requires var s := Run(InitialState(cfg), events);
             && cfg.clientIds && !s.cleanUnsupported && s.turn.Some?
             && forall d | d in s.turn.value.accepted :: d.input.sidecar.Some? && d.input.replyId.Some?
    ensures var group := Run(InitialState(cfg), events).turn.value.accepted;
            && |SentIds(group)| == |group|
            && forall k | 0 <= k < |group| :: group[k].input.replyId == Some(SentIds(group)[k])
  {
    hide Run, SentIds;
    var s := Run(InitialState(cfg), events);
    var group := s.turn.value.accepted;
    forall k | 0 <= k < |group| ensures group[k].clientId == group[k].input.replyId && group[k].clientId.Some? {
      assert group[k] in group;
      MembersAreNamed(cfg, events, k);
    }
    SentIdsArePointwise(group);
  }

  // ---- A refused root ------------------------------------------------------------------------------------

  /** How often the root's request has been sent again. */
  function Retries(t: Turn): nat {
    (if t.rpc.fellBack then 1 else 0) + if t.rpc.capabilityRetried then 1 else 0
  }

  /** The structured form was refused by a codex that cannot have begun the turn. */
  predicate FormRefused(t: Turn, failure: Failure) {
    t.rpc.structured && !t.rpc.capabilityRetried && failure.capability && (t.rpc.expected.Some? || !t.serverStarted)
  }

  /** Something shows that the app-server may have run the root. */
  predicate MayHaveRun(t: Turn) {
    t.serverStarted || t.proof.Some? || t.canonical.Some? || |t.accepted| > 1
  }

  /** What becomes of a root whose request fails, exactly. It is sent again only if its Goal turn is
      gone or its structured form was refused, each at most once; it is reported as failed only on an
      answer of the app-server and only if nothing shows that it may have run; and otherwise the
      outcome is unknown, and fences. */
  lemma RefusedRootIsExact(s: State, failure: Failure)
    requires s.pc == AwaitResponse && s.turn.Some? && !s.fenced
    ensures var t, s' := s.turn.value, Step(s, RootError(failure));
            var again := StartsOver(s, failure) || FormRefused(t, failure);
            && s'.turn.Some? && s'.finals == s.finals && s'.turn.value.accepted == t.accepted
            && (s'.pc == AwaitResponse <==> again)
            && (s'.pc == Threw(failure.message) <==> !again && failure.rpc && !MayHaveRun(t))
            && (s'.fenced <==> !again && (!failure.rpc || MayHaveRun(t)))
            && (s'.fenced ==> s'.pc == Returned && s'.turn.value.phase == Fenced && s'.turn.value.completed)
            && (again ==> Retries(s'.turn.value) == Retries(t) + 1 <= 2)
  {
    hide OnRootError, Retries;
    if StartsOver(s, failure) || FormRefused(s.turn.value, failure) {
      RootGoesAgain(s, failure);
    } else {
      RootEnds(s, failure);
    }
  }

  lemma RootGoesAgain(s: State, failure: Failure)
    requires s.pc == AwaitResponse && s.turn.Some? && !s.fenced
    requires StartsOver(s, failure) || FormRefused(s.turn.value, failure)
    ensures var s' := OnRootError(s, failure);
            && s'.turn.Some? && s'.finals == s.finals && s'.turn.value.accepted == s.turn.value.accepted
            && s'.pc == AwaitResponse && !s'.fenced
            && Retries(s'.turn.value) == Retries(s.turn.value) + 1 <= 2
  {}

  lemma RootEnds(s: State, failure: Failure)
    requires s.pc == AwaitResponse && s.turn.Some? && !s.fenced
    requires !StartsOver(s, failure) && !FormRefused(s.turn.value, failure)
    ensures var t, s' := s.turn.value, OnRootError(s, failure);
            && s'.turn.Some? && s'.finals == s.finals && s'.turn.value.accepted == t.accepted
            && (if failure.rpc && !MayHaveRun(t) then s' == s.(pc := Threw(failure.message))
                else s'.fenced && s'.pc == Returned && s'.turn.value.phase == Fenced && s'.turn.value.completed)
  {}

  /** How it is sent again: as a turn of its own with nothing kept of the Goal turn, or in the plain form,
      which every later input of this generation is then sent in. */
  lemma ResentRootIsPlain(s: State, failure: Failure)
    requires s.pc == AwaitResponse && s.turn.Some?
    requires StartsOver(s, failure) || FormRefused(s.turn.value, failure)
    ensures var t, s' := s.turn.value, Step(s, RootError(failure));
            && s'.turn.Some? && s'.turn.value.clientId == t.clientId
            && (StartsOver(s, failure) ==>
                && s'.turn.value.kind == StartRequest && s'.turn.value.rpc.expected.None? && s'.turn.value.nativeId.None?
                && !s'.turn.value.serverStarted && s'.turn.value.pendingNotes == [] && s'.turn.value.pendingCompletions == []
                && s'.turn.value.rpc.structured == t.rpc.structured && s'.cleanUnsupported == s.cleanUnsupported)
            && (!StartsOver(s, failure) ==>
                && !s'.turn.value.rpc.structured && s'.cleanUnsupported
                && s'.turn.value.kind == t.kind && s'.turn.value.nativeId == t.nativeId
                && s'.turn.value.pendingNotes == t.pendingNotes)
  {}
}
