/** Which outstanding responses hold a turn open. A follow-up steer is a barrier to every
    settlement of its turn; the root's own request is not. */
module RunnerBarriers {
  import opened Prelude
  import opened NativeTurns
  import opened RunnerTypes
  import opened RunnerSteps
  import opened RunnerIdentity
  import opened RunnerInvariants
  import opened RunnerRuns
  import opened RunnerGuarantees
  import opened RunnerSettlements
  import opened RunnerShortfalls

  // ---- The follow-up steer -----------------------------------------------------------------

  lemma LoopKeepsSteer(s: State, e: Event)
    requires Live(s) && !s.fenced && s.steer.Some? && IsLoopEvent(e)
    ensures Step(s, e).steer == s.steer && Step(s, e).overlapped == s.overlapped && Step(s, e).fenced == s.fenced
  {}

  lemma StepKeepsSteer(s: State, e: Event)
    requires Live(s) && !s.fenced && Identified(s) && s.steer.Some? && !e.SteerResponse? && !e.SteerError?
    ensures Step(s, e).steer == s.steer && Step(s, e).overlapped == s.overlapped
  {
    hide Live, Identified;
    if IsLoopEvent(e) {
      LoopKeepsSteer(s, e);
    } else {
      match e {
        case RootResponse(responseId) => OnRootResponseCalm(s, responseId);
        case RootError(failure) => OnRootErrorSteady(s, failure);
        case Notify(note) => OnNoteSteady(s, note, false);
        case HistoryScanned(candidates, failed, expired) => OnHistoryScannedSteady(s, candidates, failed, expired);
      }
    }
  }

  /** While a follow-up steer is out nothing settles its turn, short of a fence. */
  lemma SteerIsABarrier(s: State, e: Event)
    requires Sound(s) && Identified(s) && !s.overlapped && !s.fenced
    requires s.steer.Some? && !e.SteerResponse? && !e.SteerError?
    ensures var s' := Step(s, e);
            !s'.fenced ==> s'.turn.Some? && !s'.turn.value.completed && s'.turn.value.epoch == s.turn.value.epoch
  {
    hide Step;
    StepSound(s, e);
    StepKeepsSteer(s, e);
  }

  // ---- The root's request, exactly -----------------------------------------------------------

  predicate HoldsCanonical(t: Turn) {
    t.completionSeen && t.terminal.Some? && t.terminal.value.id.Some? && t.terminal.value.id == t.canonical
  }

  /** The open turn is settled while its root's request is still out. */
  predicate SettledEarly(s: State) {
    s.pc == AwaitResponse && !s.fenced && s.turn.Some? && s.turn.value.completed
  }

  /** What a completion settles before the root's response: the group of a root that was steered
      into a Goal turn, or a turn without a group whose client item the record holds, unless
      its root is an authorized start, which keeps it as a proof. */
  predicate CompletionSettles(s: State, t: Turn, id: Option<Id>, rec: NativeTurn) {
    if InGroupMode(s, t) then !Steering(s, t) && !t.startPending && t.canonical.Some? && id == t.canonical
    else rec.terminal && |ExactFor(rec, t.clientId)| == 1 && !UpgradesToProof(t, id)
  }

  /** The events that settle an open turn before its root's response: such a completion; the
      answer to the group's own steer, if a canonical completion is held for it, by acceptance
      for a Goal root only, by a definite rejection for any root; and a group's history scan. */
  predicate SettlesBeforeResponse(s: State, e: Event)
    requires s.turn.Some?
  {
    var t := s.turn.value;
    match e
    case Notify(Completed(turnParam, rec)) => CompletionSettles(s, t, NoteId(turnParam, rec), rec)
    case SteerResponse(steeredId) => SteerAccepted(s, steeredId) && HoldsCanonical(t) && !t.startPending
    case SteerError(refusal) => s.steer.Some? && refusal.rpc && refusal.definite && HoldsCanonical(t)
    case HistoryScanned(_, _, _) => t.lookup == GroupLookup
    case _ => false
  }

  /** An open turn whose root's request is out. */
  predicate Unanswered(s: State) {
    && Sound(s) && Identified(s) && !s.overlapped && !s.fenced
    && s.pc == AwaitResponse && s.turn.Some? && !s.turn.value.completed
  }

  /** The drain loop and the fence are left alone. */
  predicate SamePace(s: State, s': State) {
    s'.turn.Some? == s.turn.Some? && s'.pc == s.pc && s'.fenced == s.fenced
  }

  lemma CompleteSingleSettles(s: State, rec: NativeTurn, index: Option<nat>)
    requires s.turn.Some? && !s.turn.value.completed
    ensures var s' := CompleteSingle(s, rec, index); SamePace(s, s') && s'.turn.value.completed == rec.terminal
  {}

  lemma UpgradeNeverSettles(s: State, id: Id, rec: NativeTurn)
    requires s.turn.Some? && !s.turn.value.completed
    ensures var s' := UpgradeByCompletion(s, id, rec);
            s'.turn.Some? && s'.pc == s.pc && (!s'.fenced ==> !s'.turn.value.completed)
  {}

  lemma UpgradeHasId(t: Turn, id: Option<Id>)
    requires UpgradesToProof(t, id)
    ensures id.Some?
  {}

  lemma SingleCompletionSettles(s: State, id: Option<Id>, rec: NativeTurn)
    requires s.turn.Some? && !s.turn.value.completed && !s.turn.value.requestAccepted && !s.fenced
    ensures var s' := OnSingleCompleted(s, s.turn.value, id, rec);
            && s'.turn.Some? && s'.pc == s.pc
            && (!s'.fenced && s'.turn.value.completed
                <==> rec.terminal && |ExactFor(rec, s.turn.value.clientId)| == 1 && !UpgradesToProof(s.turn.value, id))
  {
    hide CompleteSingle, UpgradeByCompletion, ExactFor, StartSingleLookup, UpgradesToProof;
    assert With(s, s.turn.value) == s;
    var exact := ExactFor(rec, s.turn.value.clientId);
    if |exact| == 1 {
      CompleteSingleSettles(s, rec, Some(exact[0]));
      if UpgradesToProof(s.turn.value, id) {
        UpgradeHasId(s.turn.value, id);
        UpgradeNeverSettles(s, id.value, rec);
      }
    }
  }

  lemma SettleSteeredPace(s: State, rec: NativeTurn)
    requires s.turn.Some?
    ensures SamePace(s, SettleSteered(s, rec)) && SamePace(s, StartGroupLookup(s))
  {
    hide VerifyGroup, Rebuild;
  }

  lemma RouteBufferedSettles(s: State, rec: NativeTurn)
    requires s.turn.Some? && !s.turn.value.completed && !s.turn.value.conflictReported
    ensures var s' := RouteBuffered(s, rec);
            && s'.turn.Some? && s'.pc == s.pc && s'.fenced == s.fenced
            && (s'.turn.value.completed <==> rec.id.Some? && rec.id == s.turn.value.canonical)
  {
    hide SettleSteered, StartGroupLookup;
    SettleSteeredCompletes(s, rec);
    SettleSteeredPace(s, rec);
    GroupLookupHolds(s);
  }

  lemma GroupCompletionKeepsPace(s: State, id: Option<Id>, rec: NativeTurn)
    requires s.turn.Some?
    ensures SamePace(s, OnGroupCompleted(s, s.turn.value, id, rec))
  {
    hide SettleSteered, StartGroupLookup;
    SettleSteeredPace(With(s, HoldCompletion(s.turn.value, id, rec)), rec);
  }

  lemma CompletionIsExact(s: State, turnParam: Option<Id>, rec: NativeTurn)
    requires Unanswered(s)
    ensures SettledEarly(Step(s, Notify(Completed(turnParam, rec))))
       <==> CompletionSettles(s, s.turn.value, NoteId(turnParam, rec), rec)
  {
    hide Sound, OnGroupCompleted, OnSingleCompleted, ExactFor;
    var id := NoteId(turnParam, rec);
    var s1 := ClearNative(s, id);
    assert s1 == s.(nativeActive := s1.nativeActive);
    if InGroupMode(s, s.turn.value) {
      GroupCompletionSettles(s1, id, rec);
      GroupCompletionKeepsPace(s1, id, rec);
    } else {
      SingleCompletionSettles(s1, id, rec);
    }
  }

  lemma JoinedTurn(s: State)
    requires Unanswered(s) && s.steer.Some? && |s.queue| > 0
    ensures var s1 := JoinGroup(s, s.steer.value);
            && s1.turn.Some? && s1.turn.value.epoch == s.steer.value.epoch && s1.steer.None?
            && s1.pc == s.pc && !s1.fenced && !s1.turn.value.completed && !s1.turn.value.conflictReported
            && HoldsCanonical(s1.turn.value) == HoldsCanonical(s.turn.value)
            && (CanResume(s1) <==> s.turn.value.completionSeen && s.turn.value.terminal.Some? && !s.turn.value.startPending)
            && s1.turn.value.terminal == s.turn.value.terminal && s1.turn.value.canonical == s.turn.value.canonical
  {}

  lemma AcceptanceIsExact(s: State, steeredId: Option<Id>)
    requires Unanswered(s)
    ensures SettledEarly(OnSteerResponse(s, steeredId))
       <==> SteerAccepted(s, steeredId) && HoldsCanonical(s.turn.value) && !s.turn.value.startPending
  {
    if SteerAccepted(s, steeredId) {
      hide Unanswered, JoinGroup, RouteBuffered, CanResume;
      var s1 := JoinGroup(s, s.steer.value);
      JoinedTurn(s);
      if CanResume(s1) { RouteBufferedSettles(s1, s1.turn.value.terminal.value); }
    }
  }

  lemma RejectionIsExact(s: State, refusal: Failure)
    requires Unanswered(s)
    ensures SettledEarly(OnSteerError(s, refusal))
       <==> s.steer.Some? && refusal.rpc && refusal.definite && HoldsCanonical(s.turn.value)
  {
    if s.steer.Some? {
      hide RouteBuffered;
      var s1 := CloseSteering(s);
      if s1.turn.value.terminal.Some? { RouteBufferedSettles(s1, s1.turn.value.terminal.value); }
    }
  }

  lemma ResolveGroupPace(s: State, matches: seq<(NativeTurn, nat)>)
    requires s.turn.Some?
    ensures SamePace(s, ResolveGroup(s, matches)) && forall reason :: SamePace(s, ReportConflict(s, reason))
  {
    hide Rebuild;
  }

  lemma GroupScanSettles(s: State, candidates: seq<NativeTurn>, failed: bool)
    requires s.turn.Some? && s.turn.value.lookup == GroupLookup
    requires !s.turn.value.completed && !s.turn.value.conflictReported
    ensures var s' := OnGroupScanned(s, candidates, failed); SamePace(s, s') && s'.turn.value.completed
  {
    hide GroupMatches, ResolveGroup;
    var s1 := FinishLookup(s);
    var matches := GroupMatches(candidates, SentIds(s.turn.value.accepted));
    ResolveGroupText(s1, matches);
    ResolveGroupPace(s1, matches);
  }

  /** No single lookup is under way before the response. */
  lemma ScanIsExact(s: State, candidates: seq<NativeTurn>, failed: bool, expired: bool)
    requires Unanswered(s)
    ensures SettledEarly(OnHistoryScanned(s, candidates, failed, expired)) <==> s.turn.value.lookup == GroupLookup
  {
    hide OnGroupScanned, OnSingleScanned;
    if s.turn.value.lookup == GroupLookup { GroupScanSettles(s, candidates, failed); }
  }

  lemma AcceptedPace(s: State, respId: Option<Id>)
    requires s.turn.Some?
    ensures AcceptRoot(s, respId).turn.Some? && AcceptRoot(s, respId).pc == AwaitDone
  {}

  lemma ResponseNeverSettlesEarly(s: State, responseId: Option<Id>)
    requires Unanswered(s)
    ensures !SettledEarly(OnRootResponse(s, responseId))
  {
    hide AfterAccept, AcceptRoot;
    var respId := if responseId.Some? then responseId else s.turn.value.nativeId;
    if !ContradictsProof(s.turn.value, respId) {
      AcceptedPace(s, respId);
      AfterAcceptSteady(AcceptRoot(s, respId));
    }
  }

  lemma FailureNeverSettlesEarly(s: State, failure: Failure)
    requires Unanswered(s)
    ensures !SettledEarly(OnRootError(s, failure))
  {}

  lemma AfterStartedNeverSettles(s: State, id: Id, note: Note)
    requires s.turn.Some? && !s.turn.value.completed && note.Started?
    ensures !SettledEarly(AfterStarted(s, id, note))
  {
    hide TryAdmitSteer, HoldsStart, ExactProof;
    AdmissionNeverSettles(With(s, s.turn.value.(serverStarted := true)));
  }

  lemma AdmissionNeverSettles(s: State)
    requires s.turn.Some? && !s.turn.value.completed
    ensures !SettledEarly(TryAdmitSteer(s))
  {
    hide Admits;
  }

  lemma StartedForNeverSettles(s: State, id: Id, turnParam: Option<Id>, rec: NativeTurn)
    requires s.turn.Some? && !s.turn.value.completed
    ensures !SettledEarly(OnStartedFor(s, s.turn.value, id, turnParam, rec))
  {
    hide ExactFor, AfterStarted;
    var exact := |ExactFor(rec, s.turn.value.clientId)| == 1;
    AfterStartedNeverSettles(With(s, ProveStarted(s.turn.value, id, exact)), id, Started(turnParam, rec));
  }

  lemma OtherNotesNeverSettle(s: State, note: Note)
    requires Unanswered(s) && !note.Completed?
    ensures !SettledEarly(OnNote(s, note, false))
  {
    hide Sound, OnStartedFor;
    if note.Started? {
      var id := NoteId(note.turnParam, note.rec);
      if id.Some? { StartedForNeverSettles(s.(nativeActive := id), id.value, note.turnParam, note.rec); }
    }
  }

  lemma LoopNeverSettles(s: State, e: Event)
    requires Unanswered(s) && IsLoopEvent(e)
    ensures !SettledEarly(Step(s, e))
  {
    LoopEventFrame(s, e);
  }

  /** What can settle a turn whose root's request is still out, exactly, over all events. */
  lemma EarlySettlementIsExact(s: State, e: Event)
    requires Unanswered(s)
    ensures SettledEarly(Step(s, e)) <==> SettlesBeforeResponse(s, e)
  {
    hide Unanswered, SettledEarly;
    if IsLoopEvent(e) {
      LoopNeverSettles(s, e);
    } else {
      match e {
        case RootResponse(responseId) => ResponseNeverSettlesEarly(s, responseId);
        case RootError(failure) => FailureNeverSettlesEarly(s, failure);
        case SteerResponse(steeredId) => AcceptanceIsExact(s, steeredId);
        case SteerError(refusal) => RejectionIsExact(s, refusal);
        case Notify(note) =>
          if note.Completed? { CompletionIsExact(s, note.turnParam, note.rec); } else { OtherNotesNeverSettle(s, note); }
        case HistoryScanned(candidates, failed, expired) => ScanIsExact(s, candidates, failed, expired);
      }
    }
  }

  // ---- A Goal root's group settles at its completion ----------------------------------------

  const GOAL := NativeTurn(Some(20), false, false, [], None)
  const GOAL_ITEMS := [UserMessage(Some(1)), UserMessage(Some(2)), AgentMessage(true, "done")]

  const PAIR := [Dispatch(FIRST, Some(1)), Dispatch(SECOND, Some(2))]

  function SecondSteer(native: Id): SteerRpc {
    SteerRpc(1, Dispatch(SECOND, Some(2)), native)
  }

  const PROVED :=
    FreshTurn(Some(20)).(canonical := Some(20), proof := Some(ExactStarted), phase := Open)
  const GROWN := PROVED.(accepted := PAIR)

  lemma FirstIsProved(s: State)
    requires s.turn == Some(FreshTurn(Some(20))) && s.nativeActive == Some(20) && s.queue == []
    ensures Step(s, Notify(Started(None, Record(20, [UserMessage(Some(1))])))) == s.(turn := Some(PROVED))
  {
    var rec := Record(20, [UserMessage(Some(1))]);
    SingleOccurrence(rec, 1, 0);
    assert ProveStarted(FreshTurn(Some(20)), 20, true).(serverStarted := true) == PROVED;
  }

  /** An open turn of the first input alone, with nothing outstanding but its own request. */
  predicate Joinable(t: Turn, native: Id) {
    && t.epoch == 1 && t.accepted == [Dispatch(FIRST, Some(1))] && t.canonical == Some(native) && t.phase == Open
    && !t.completed && !t.steeringClosed && !t.completionSeen && t.lookup == NoLookup && t.pendingCompletions == []
  }

  lemma SecondJoins(s: State, t: Turn, native: Id)
    requires s.turn == Some(t) && Joinable(t, native) && s.pc == AwaitResponse && s.inbound == [FIRST] && s.queue == []
    requires s.steer.None? && !s.fenced && s.cfg == CODEX && !s.cleanUnsupported
    ensures Step(Step(s, Ask("second", 2)), SteerResponse(Some(native)))
         == s.(inbound := [FIRST, SECOND],
               turn := Some(t.(accepted := PAIR)))
  {
    var s1 := s.(inbound := [FIRST, SECOND], queue := [SECOND], steer := Some(SecondSteer(native)));
    SecondIsSent(s, t, native);
    assert [SECOND][1..] == [];
    assert t.accepted + [Dispatch(SECOND, Some(2))] == PAIR;
    assert JoinGroup(s1, s1.steer.value)
        == s.(inbound := [FIRST, SECOND], turn := Some(t.(accepted := PAIR)));
  }

  lemma SecondIsSent(s: State, t: Turn, native: Id)
    requires s.turn == Some(t) && Joinable(t, native) && s.pc == AwaitResponse && s.inbound == [FIRST] && s.queue == []
    requires s.steer.None? && !s.fenced && s.cfg == CODEX && !s.cleanUnsupported
    ensures Step(s, Ask("second", 2))
         == s.(inbound := [FIRST, SECOND], queue := [SECOND], steer := Some(SecondSteer(native)))
  {
    assert Receive(s, "second", Some(Sidecar(Some(2))), None, true) == s.(queue := [SECOND], inbound := [FIRST, SECOND]);
  }

  lemma GoalGroupMatches(native: Id)
    ensures VerifyGroup(Record(native, GOAL_ITEMS), [1, 2]) == Matched(1)
    ensures Rebuild(Record(native, GOAL_ITEMS), 1) == Said("done")
  {
    assert InOrder(GOAL_ITEMS, [1, 2], [0, 1]);
    GroupCheckIsExact(Record(native, GOAL_ITEMS), [1, 2]);
    assert GOAL_ITEMS[2..] == [AgentMessage(true, "done")];
  }

  lemma GrownSentIds()
    ensures SentIds(GROWN.accepted) == [1, 2]
  {
    assert GROWN.accepted[1..] == [Dispatch(SECOND, Some(2))];
    assert SentIds([Dispatch(SECOND, Some(2))]) == [2];
  }

  lemma GrownIsRouted(s: State, rec: NativeTurn)
    requires s.turn == Some(GROWN) && s.steer.None? && s.nativeActive == Some(20) && rec.id == Some(20)
    ensures OnCompleted(s, None, rec)
         == SettleSteered(With(s.(nativeActive := None), HoldCompletion(GROWN, Some(20), rec)), rec)
  {
    assert OnCompleted(s, None, rec) == OnGroupCompleted(s.(nativeActive := None), GROWN, Some(20), rec);
  }

  lemma GoalGroupSettles(s: State, rec: NativeTurn)
    requires s.turn == Some(GROWN) && s.steer.None? && s.nativeActive == Some(20) && rec.id == Some(20)
    requires VerifyGroup(rec, [1, 2]) == Matched(1) && Rebuild(rec, 1) == Said("done")
    ensures var s' := Step(s, Notify(Completed(None, rec)));
            && s'.pc == s.pc && s'.overlapped == s.overlapped && s'.fenced == s.fenced
            && s'.turn.Some? && s'.turn.value.completed && !s'.turn.value.requestAccepted
            && s'.turn.value.finalText == Said("done")
  {
    GrownSentIds();
    GrownIsRouted(s, rec);
    HeldGrown(rec);
    MatchedGroupSettles(With(s.(nativeActive := None), HoldCompletion(GROWN, Some(20), rec)), rec, 1);
  }

  lemma HeldGrown(rec: NativeTurn)
    ensures var t := HoldCompletion(GROWN, Some(20), rec);
            !t.completed && !t.requestAccepted && t.accepted == GROWN.accepted
  {}

  lemma MatchedGroupSettles(s: State, rec: NativeTurn, lastIndex: nat)
    requires s.turn.Some? && !s.turn.value.completed
    requires VerifyGroup(rec, SentIds(s.turn.value.accepted)) == Matched(lastIndex)
    ensures var s' := SettleSteered(s, rec);
            && s'.pc == s.pc && s'.overlapped == s.overlapped && s'.fenced == s.fenced
            && s'.turn.Some? && s'.turn.value.completed && s'.turn.value.requestAccepted == s.turn.value.requestAccepted
            && s'.turn.value.finalText == Rebuild(rec, lastIndex)
  {}

  const EARLY_RUN: seq<Event> :=
    [Notify(Started(None, GOAL))] + ([Ask("first", 1)] + ([ThreadReady]
    + ([Notify(Started(None, Record(20, [UserMessage(Some(1))])))] + ([Ask("second", 2)]
    + ([SteerResponse(Some(20))] + ([Notify(Completed(None, Record(20, GOAL_ITEMS)))] + []))))))

  /** A group rooted in a Goal turn is settled although its root's response is still out. */
  lemma GoalRootSettlesEarly()
    ensures var s := Run(InitialState(CODEX), EARLY_RUN);
            && !s.overlapped && !s.fenced && s.pc == AwaitResponse
            && s.turn.Some? && s.turn.value.completed && !s.turn.value.requestAccepted
            && s.turn.value.finalText == Said("done")
  {
    var s0 := InitialState(CODEX);
    var s1 := s0.(nativeActive := Some(20), published := s0.published + [true]);
    assert Step(s0, Notify(Started(None, GOAL))) == s1;
    FirstIsDequeued(s1);
    var s2 := s1.(pc := Dequeued(FIRST), inbound := [FIRST]);
    FirstBegins(s2);
    var s3 := s2.(pc := AwaitResponse, epochs := 1, turn := Some(FreshTurn(Some(20))));
    FirstIsProved(s3);
    var s4 := s3.(turn := Some(PROVED));
    SecondJoins(s4, PROVED, 20);
    var s5 := Step(s4, Ask("second", 2));
    var s6 := s4.(inbound := [FIRST, SECOND], turn := Some(GROWN));
    GoalGroupMatches(20);
    GoalGroupSettles(s6, Record(20, GOAL_ITEMS));
    EarlyRunEnds(s0, s1, s2, s3, s4, s5, s6);
  }

  lemma EarlyRunEnds(s0: State, s1: State, s2: State, s3: State, s4: State, s5: State, s6: State)
    requires s1 == Step(s0, Notify(Started(None, GOAL))) && s2 == Step(s1, Ask("first", 1)) && s3 == Step(s2, ThreadReady)
    requires s4 == Step(s3, Notify(Started(None, Record(20, [UserMessage(Some(1))]))))
    requires s5 == Step(s4, Ask("second", 2)) && s6 == Step(s5, SteerResponse(Some(20)))
    ensures Run(s0, EARLY_RUN) == Step(s6, Notify(Completed(None, Record(20, GOAL_ITEMS))))
  {
    var e6 := [Notify(Completed(None, Record(20, GOAL_ITEMS)))] + [];
    var e5 := [SteerResponse(Some(20))] + e6;
    var e4 := [Ask("second", 2)] + e5;
    var e3 := [Notify(Started(None, Record(20, [UserMessage(Some(1))])))] + e4;
    var e2 := [ThreadReady] + e3;
    var e1 := [Ask("first", 1)] + e2;
    RunCons(s0, Notify(Started(None, GOAL)), e1);
    RunCons(s1, Ask("first", 1), e2);
    RunCons(s2, ThreadReady, e3);
    RunCons(s3, Notify(Started(None, Record(20, [UserMessage(Some(1))]))), e4);
    RunCons(s4, Ask("second", 2), e5);
    RunCons(s5, SteerResponse(Some(20)), e6);
    RunCons(s6, Notify(Completed(None, Record(20, GOAL_ITEMS))), []);
  }

  // ---- A started root's group settles at a rejected steer --------------------------------------

  const THIRD := Input(2, "third", Some(Sidecar(Some(3))), Some(3), true)
  const STARTED :=
    FreshTurn(None).(nativeId := Some(10), canonical := Some(10), proof := Some(ExactStarted), phase := Open,
                     serverStarted := true)
  const PAIRED := STARTED.(accepted := PAIR)
  const THIRD_STEER := SteerRpc(1, Dispatch(THIRD, Some(3)), 10)
  const DONE := Record(10, GOAL_ITEMS)
  const HELD := PAIRED.(completionSeen := true, steeringClosed := true, terminal := Some(DONE))
  const REFUSED := Failure(true, false, false, true, "not steerable")

  lemma FirstIsStarted(s: State)
    requires s.turn == Some(FreshTurn(None)) && s.queue == [] && s.nativeActive.None?
    ensures Step(s, Notify(Started(None, Record(10, [UserMessage(Some(1))]))))
         == s.(nativeActive := Some(10), turn := Some(STARTED))
  {
    var rec := Record(10, [UserMessage(Some(1))]);
    SingleOccurrence(rec, 1, 0);
    assert ProveStarted(FreshTurn(None), 10, true).(serverStarted := true) == STARTED;
  }

  lemma ThirdIsSteered(s: State)
    requires s.turn == Some(PAIRED) && s.pc == AwaitResponse && s.inbound == [FIRST, SECOND] && s.queue == []
    requires s.steer.None? && !s.fenced && !s.overlapped && s.cfg == CODEX && !s.cleanUnsupported
    ensures Step(s, Ask("third", 3))
         == s.(inbound := [FIRST, SECOND, THIRD], queue := [THIRD],
               steer := Some(THIRD_STEER))
  {
    assert Receive(s, "third", Some(Sidecar(Some(3))), None, true)
        == s.(queue := [THIRD], inbound := [FIRST, SECOND, THIRD]);
  }

  lemma CompletionIsHeld(s: State)
    requires s.turn == Some(PAIRED) && s.steer == Some(THIRD_STEER) && s.nativeActive == Some(10)
    ensures Step(s, Notify(Completed(None, DONE))) == s.(nativeActive := None, turn := Some(HELD))
  {
    assert HoldCompletion(PAIRED, Some(10), DONE) == HELD;
  }

  lemma RefusalSettles(s: State)
    requires s.turn == Some(HELD) && s.steer == Some(THIRD_STEER) && s.nativeActive.None?
    ensures Step(s, SteerError(REFUSED))
         == s.(steer := None, turn := Some(HELD.(finalText := Said("done"), completed := true, phase := Closing)))
  {
    hide SettleSteered;
    var s1 := s.(steer := None);
    assert CloseSteering(s) == s1;
    HeldGroupSettles(s1);
    assert RouteHeld(s1) == SettleSteered(s1, DONE);
  }

  lemma HeldGroupSettles(s: State)
    requires s.turn == Some(HELD) && s.nativeActive.None?
    ensures SettleSteered(s, DONE)
         == s.(turn := Some(HELD.(finalText := Said("done"), completed := true, phase := Closing)))
  {
    hide VerifyGroup, Rebuild;
    PairedSentIds();
    GoalGroupMatches(10);
    assert HELD.allAgentText == "" && HELD.terminal == Some(DONE);
  }

  lemma PairedSentIds()
    ensures SentIds(HELD.accepted) == [1, 2]
  {
    GrownSentIds();
    assert HELD.accepted == GROWN.accepted;
  }

  const REFUSED_RUN: seq<Event> :=
    [Ask("first", 1)] + ([ThreadReady] + ([Notify(Started(None, Record(10, [UserMessage(Some(1))])))]
    + ([Ask("second", 2)] + ([SteerResponse(Some(10))] + ([Ask("third", 3)]
    + ([Notify(Completed(None, DONE))] + ([SteerError(REFUSED)] + [])))))))

  /** A group whose root was started is settled, with its answer, although that start is still
      unanswered: the third input's steer is refused while the group's completion is held. */
  lemma StartedRootSettlesEarly()
    ensures var s := Run(InitialState(CODEX), REFUSED_RUN);
            && SettledEarly(s) && !s.overlapped && Identified(s) && Sound(s)
            && var t := s.turn.value;
            && t.startPending && !t.requestAccepted && t.finalText == Said("done")
            && t.rpc.expected.None? && t.serverStarted && t.canonical == Some(10)
            && Members(t.accepted) == [FIRST, SECOND] && s.finals == [] && s.queue == [THIRD]
  {
    var s0 := InitialState(CODEX);
    FirstIsDequeued(s0);
    var s1 := s0.(pc := Dequeued(FIRST), inbound := [FIRST]);
    FirstBegins(s1);
    var s2 := s1.(pc := AwaitResponse, epochs := 1, turn := Some(FreshTurn(None)));
    FirstIsStarted(s2);
    var s3 := s2.(nativeActive := Some(10), turn := Some(STARTED));
    SecondJoins(s3, STARTED, 10);
    var s4 := Step(s3, Ask("second", 2));
    var s5 := s3.(inbound := [FIRST, SECOND], turn := Some(PAIRED));
    ThirdIsSteered(s5);
    var s6 := Step(s5, Ask("third", 3));
    CompletionIsHeld(s6);
    var s7 := s6.(nativeActive := None, turn := Some(HELD));
    RefusalSettles(s7);
    RefusedRunEnds(s0, s1, s2, s3, s4, s5, s6, s7);
    MembersAppend([Dispatch(FIRST, Some(1))], Dispatch(SECOND, Some(2)));
    MembersAppend([], Dispatch(FIRST, Some(1)));
    InitialSound(CODEX);
    RunFrom(s0, REFUSED_RUN);
  }

  lemma RefusedRunEnds(s0: State, s1: State, s2: State, s3: State, s4: State, s5: State, s6: State, s7: State)
    requires s1 == Step(s0, Ask("first", 1)) && s2 == Step(s1, ThreadReady)
    requires s3 == Step(s2, Notify(Started(None, Record(10, [UserMessage(Some(1))]))))
    requires s4 == Step(s3, Ask("second", 2)) && s5 == Step(s4, SteerResponse(Some(10)))
    requires s6 == Step(s5, Ask("third", 3)) && s7 == Step(s6, Notify(Completed(None, DONE)))
    ensures Run(s0, REFUSED_RUN) == Step(s7, SteerError(REFUSED))
  {
    var e7 := [SteerError(REFUSED)] + [];
    var e6 := [Notify(Completed(None, DONE))] + e7;
    var e5 := [Ask("third", 3)] + e6;
    var e4 := [SteerResponse(Some(10))] + e5;
    var e3 := [Ask("second", 2)] + e4;
    var e2 := [Notify(Started(None, Record(10, [UserMessage(Some(1))])))] + e3;
    var e1 := [ThreadReady] + e2;
    RunCons(s0, Ask("first", 1), e1);
    RunCons(s1, ThreadReady, e2);
    RunCons(s2, Notify(Started(None, Record(10, [UserMessage(Some(1))]))), e3);
    RunCons(s3, Ask("second", 2), e4);
    RunCons(s4, SteerResponse(Some(10)), e5);
    RunCons(s5, Ask("third", 3), e6);
    RunCons(s6, Notify(Completed(None, DONE)), e7);
    RunCons(s7, SteerError(REFUSED), []);
  }

  const OVERLOADED := Failure(true, false, false, false, "model overloaded")

  lemma LateErrorFences(s: State)
    requires SettledEarly(s) && s.turn.value.canonical.Some?
    requires s.turn.value.rpc.expected.None? && s.turn.value.serverStarted
    ensures var s' := Step(s, RootError(OVERLOADED));
            s'.fenced && s'.finals == s.finals && s'.overlapped == s.overlapped
  {}

  /** An error that answers the start after all fences the generation, and the answers of the
      settled group are never emitted, whatever follows. */
  lemma SettledGroupIsNeverAnswered(later: seq<Event>)
    ensures Run(InitialState(CODEX), REFUSED_RUN + [RootError(OVERLOADED)] + later).finals == []
  {
    hide Run, Sound, Identified;
    StartedRootSettlesEarly();
    var s := Run(InitialState(CODEX), REFUSED_RUN);
    LateErrorFences(s);
    RunSplit(InitialState(CODEX), REFUSED_RUN, [RootError(OVERLOADED)]);
    RunOne(s, RootError(OVERLOADED));
    FenceIsAbsorbing(CODEX, REFUSED_RUN + [RootError(OVERLOADED)], later);
  }

  lemma RunOne(s: State, e: Event)
    ensures Run(s, [e]) == Step(s, e)
  {}

  // ---- A fenced runner still takes the steered head ---------------------------------------------

  const CONTRADICTION := Notify(Started(None, Record(11, [UserMessage(Some(1))])))

  const FENCING_RUN: seq<Event> :=
    [Ask("first", 1)] + ([ThreadReady] + ([Notify(Started(None, Record(10, [UserMessage(Some(1))])))]
    + ([Ask("second", 2)] + ([CONTRADICTION] + []))))

  lemma ContradictionFences(s: State)
    requires s.turn == Some(STARTED) && !s.fenced
    ensures var s' := Step(s, CONTRADICTION);
            && s'.fenced && s'.finals == s.finals && s'.queue == s.queue && s'.steer == s.steer
            && s'.inbound == s.inbound && s'.overlapped == s.overlapped
  {
    SingleOccurrence(Record(11, [UserMessage(Some(1))]), 1, 0);
  }

  lemma SecondWaitsFenced()
    ensures var s := Run(InitialState(CODEX), FENCING_RUN);
            && s.fenced && !s.overlapped && s.steer == Some(SecondSteer(10))
            && s.queue == [SECOND] && s.inbound == [FIRST, SECOND] && s.finals == []
  {
    var s0 := InitialState(CODEX);
    FirstIsDequeued(s0);
    var s1 := s0.(pc := Dequeued(FIRST), inbound := [FIRST]);
    FirstBegins(s1);
    var s2 := s1.(pc := AwaitResponse, epochs := 1, turn := Some(FreshTurn(None)));
    FirstIsStarted(s2);
    var s3 := s2.(nativeActive := Some(10), turn := Some(STARTED));
    SecondIsSent(s3, STARTED, 10);
    var s4 := Step(s3, Ask("second", 2));
    ContradictionFences(s4);
    FencingRunEnds(s0, s1, s2, s3, s4);
  }

  lemma FencingRunEnds(s0: State, s1: State, s2: State, s3: State, s4: State)
    requires s1 == Step(s0, Ask("first", 1)) && s2 == Step(s1, ThreadReady)
    requires s3 == Step(s2, Notify(Started(None, Record(10, [UserMessage(Some(1))])))) && s4 == Step(s3, Ask("second", 2))
    ensures Run(s0, FENCING_RUN) == Step(s4, CONTRADICTION)
  {
    var e4 := [CONTRADICTION] + [];
    var e3 := [Ask("second", 2)] + e4;
    var e2 := [Notify(Started(None, Record(10, [UserMessage(Some(1))])))] + e3;
    RunCons(s0, Ask("first", 1), [ThreadReady] + e2);
    RunCons(s1, ThreadReady, e2);
    RunCons(s2, Notify(Started(None, Record(10, [UserMessage(Some(1))]))), e3);
    RunCons(s3, Ask("second", 2), e4);
    RunCons(s4, CONTRADICTION, []);
  }

  /** A run: while the second input's steer is out, an exact turn/started of another turn fences
      the generation; the steer's acceptance then takes the input off the queue, and no final
      answers it. */
  lemma FencedRunnerTakesHead()
    ensures var s := Run(InitialState(CODEX), FENCING_RUN + [SteerResponse(Some(10))]);
            && s.fenced && !s.overlapped
            && s.inbound == [FIRST, SECOND] && s.queue == [] && s.finals == []
  {
    var s := Run(InitialState(CODEX), FENCING_RUN);
    SecondWaitsFenced();
    InitialSound(CODEX);
    RunFrom(InitialState(CODEX), FENCING_RUN);
    RunSplit(InitialState(CODEX), FENCING_RUN, [SteerResponse(Some(10))]);
    RunOne(s, SteerResponse(Some(10)));
    FencedStep(s, SteerResponse(Some(10)));
    SteerResponseKeepsInbound(s, Some(10));
    assert [SECOND][1..] == [];
  }
}
