/** Where the runner falls short of what its comments promise, each with a concrete run, and
    how far each shortfall reaches.

    runTurn guards its last kick of tryAdmitSteer by `!turn.reconciliation`, because a turn
    under lookup may be settled at any moment. The kicks from turn/started and from the
    input line lack that guard, and no kick looks at buffered completions. */
module RunnerShortfalls {
  import opened Prelude
  import opened NativeTurns
  import opened RunnerTypes
  import opened RunnerSteps
  import opened RunnerIdentity
  import opened RunnerInvariants
  import opened RunnerRuns
  import opened RunnerGuarantees

  const CODEX := Config(true, true)

  function Ask(content: string, clientId: Id): Event {
    Framed(content, Some(Sidecar(Some(clientId))), None, true)
  }

  function Record(id: Id, items: seq<Item>): NativeTurn {
    NativeTurn(Some(id), true, true, items, None)
  }

  lemma RunCons(s: State, e: Event, rest: seq<Event>)
    ensures Run(s, [e] + rest) == Run(Step(s, e), rest)
  {
    assert ([e] + rest)[1..] == rest;
  }

  // The two inputs and the states of the runs below.

  const FIRST := Input(0, "first", Some(Sidecar(Some(1))), Some(1), true)
  const SECOND := Input(1, "second", Some(Sidecar(Some(2))), Some(2), true)

  function FreshTurn(into: Option<Id>): Turn {
    Turn(1, Some(1), if into.Some? then SteerRequest else StartRequest, RootRpc(into, true, false, false),
         into, None, None, Starting, [Dispatch(FIRST, Some(1))],
         false, into.None?, into.Some?, false, false, None, [], [], NoLookup, false, false, Said(""), "", {})
  }

  lemma FirstIsDequeued(s: State)
    requires s.inbound == [] && s.queue == [] && s.pc == Idle && s.turn.None? && !s.fenced
    ensures Step(s, Ask("first", 1)) == s.(pc := Dequeued(FIRST), inbound := [FIRST])
  {
    assert Receive(s, "first", Some(Sidecar(Some(1))), None, true) == s.(queue := [FIRST], inbound := [FIRST]);
    assert [FIRST][1..] == [];
  }

  lemma FirstBegins(s: State)
    requires s.pc == Dequeued(FIRST) && s.epochs == 0 && s.cfg == CODEX && !s.cleanUnsupported
    ensures Step(s, ThreadReady) == s.(pc := AwaitResponse, epochs := 1, turn := Some(FreshTurn(s.nativeActive)))
  {}

  // ---- An overlap loses an input --------------------------------------------------------

  const RESPONDED :=
    FreshTurn(None).(nativeId := Some(10), canonical := Some(10), proof := Some(StartResponse), phase := Open,
                     requestAccepted := true, startPending := false)

  lemma FirstResponds(s: State)
    requires s.pc == AwaitResponse && s.turn == Some(FreshTurn(None)) && s.nativeActive.None? && s.steer.None? && s.queue == []
    ensures Step(s, RootResponse(Some(10))) == s.(pc := AwaitDone, nativeActive := Some(10), turn := Some(RESPONDED))
  {
    assert AcceptRoot(s, Some(10)) == s.(pc := AwaitDone, nativeActive := Some(10), turn := Some(RESPONDED));
  }

  lemma StaleCompletionIsLookedUp(s: State)
    requires s.turn == Some(RESPONDED) && s.steer.None? && s.nativeActive == Some(10)
    ensures Step(s, Notify(Completed(None, Record(11, []))))
         == s.(turn := Some(RESPONDED.(lookup := SingleLookup(false, false))))
  {}

  lemma SecondIsSteered(s: State)
    requires s.turn == Some(RESPONDED.(lookup := SingleLookup(false, false)))
    requires s.pc == AwaitDone && s.inbound == [FIRST] && s.queue == [] && s.steer.None? && !s.fenced && s.cfg == CODEX
    requires !s.cleanUnsupported
    ensures Step(s, Ask("second", 2))
         == s.(inbound := [FIRST, SECOND], queue := [SECOND], overlapped := true,
               steer := Some(SteerRpc(1, Dispatch(SECOND, Some(2)), 10)))
  {
    assert Receive(s, "second", Some(Sidecar(Some(2))), None, true) == s.(queue := [SECOND], inbound := [FIRST, SECOND]);
  }

  const GIVEN_UP :=
    RESPONDED.(lookup := Done, conflictReported := true, completed := true, finalText := IdentityConflict(LookupFailed))

  lemma LookupFails(s: State)
    requires s.turn == Some(RESPONDED.(lookup := SingleLookup(false, false))) && s.nativeActive == Some(10)
    ensures Step(s, HistoryScanned([], true, false)) == s.(turn := Some(GIVEN_UP), nativeActive := None)
  {}

  lemma FirstIsFinalized(s: State)
    requires s.pc == AwaitDone && s.turn == Some(GIVEN_UP) && s.usage == map[] && s.finals == []
    ensures Step(s, TurnDone)
         == s.(pc := Returned, turn := None,
               finals := [Final(FIRST, Some(10), IdentityConflict(LookupFailed), false, None)])
  {
    assert s.usage - {10} == s.usage;
    var f := Final(FIRST, Some(10), IdentityConflict(LookupFailed), false, None);
    assert EmitFinal(s, FIRST, Some(10), IdentityConflict(LookupFailed), false) == s.(finals := [f]);
    EmitGroupStops(s.(finals := [f]), GIVEN_UP);
  }

  lemma EmitGroupStops(s: State, t: Turn)
    ensures EmitGroup(s, t, |t.accepted|) == s
  {}

  /** A stale completion starts a history lookup of the first turn; a second input is
      steered into it meanwhile; the lookup fails and the turn is finalized; then the
      steer's acceptance takes the second input off the queue for a turn that is gone. */
  const LOSING_RUN: seq<Event> :=
    [Ask("first", 1)] + ([ThreadReady] + ([RootResponse(Some(10))]
    + ([Notify(Completed(None, Record(11, [])))] + ([Ask("second", 2)]
    + ([HistoryScanned([], true, false)] + ([TurnDone] + ([SteerResponse(Some(10))] + [])))))))

  lemma OverlapLosesAnInput()
    ensures var s := Run(InitialState(CODEX), LOSING_RUN);
            && s.overlapped && !s.fenced
            && s.inbound == [FIRST, SECOND] && Answered(s.finals) == [FIRST] && s.queue == [] && InHand(s) == []
            && !Conserved(s)
  {
    var s0 := InitialState(CODEX);
    FirstIsDequeued(s0);
    var s1 := s0.(pc := Dequeued(FIRST), inbound := [FIRST]);
    FirstBegins(s1);
    var s2 := s1.(pc := AwaitResponse, epochs := 1, turn := Some(FreshTurn(None)));
    FirstResponds(s2);
    var s3 := s2.(pc := AwaitDone, nativeActive := Some(10), turn := Some(RESPONDED));
    StaleCompletionIsLookedUp(s3);
    var s4 := s3.(turn := Some(RESPONDED.(lookup := SingleLookup(false, false))));
    SecondIsSteered(s4);
    var s5 := Step(s4, Ask("second", 2));
    LookupFails(s5);
    var s6 := s5.(turn := Some(GIVEN_UP), nativeActive := None);
    FirstIsFinalized(s6);
    var s7 := Step(s6, TurnDone);
    SecondIsDropped(s7);
    LosingRunEnds(s0, s1, s2, s3, s4, s5, s6, s7);
    AnsweredAppend([], s7.finals[0]);
    assert [] + [s7.finals[0]] == s7.finals;
  }

  lemma SecondIsDropped(s: State)
    requires s.turn.None? && s.queue == [SECOND] && s.steer == Some(SteerRpc(1, Dispatch(SECOND, Some(2)), 10))
    ensures Step(s, SteerResponse(Some(10))) == s.(queue := [], steer := None)
  {
    assert [SECOND][1..] == [];
  }

  lemma LosingRunEnds(s0: State, s1: State, s2: State, s3: State, s4: State, s5: State, s6: State, s7: State)
    requires s1 == Step(s0, Ask("first", 1)) && s2 == Step(s1, ThreadReady) && s3 == Step(s2, RootResponse(Some(10)))
    requires s4 == Step(s3, Notify(Completed(None, Record(11, [])))) && s5 == Step(s4, Ask("second", 2))
    requires s6 == Step(s5, HistoryScanned([], true, false)) && s7 == Step(s6, TurnDone)
    ensures Run(s0, LOSING_RUN) == Step(s7, SteerResponse(Some(10)))
  {
    var e7 := [SteerResponse(Some(10))] + [];
    var e6 := [TurnDone] + e7;
    var e5 := [HistoryScanned([], true, false)] + e6;
    var e4 := [Ask("second", 2)] + e5;
    var e3 := [Notify(Completed(None, Record(11, [])))] + e4;
    var e2 := [RootResponse(Some(10))] + e3;
    var e1 := [ThreadReady] + e2;
    RunCons(s0, Ask("first", 1), e1);
    RunCons(s1, ThreadReady, e2);
    RunCons(s2, RootResponse(Some(10)), e3);
    RunCons(s3, Notify(Completed(None, Record(11, []))), e4);
    RunCons(s4, Ask("second", 2), e5);
    RunCons(s5, HistoryScanned([], true, false), e6);
    RunCons(s6, TurnDone, e7);
    RunCons(s7, SteerResponse(Some(10)), []);
  }

  // ---- Every overlap can lose an input ---------------------------------------------------

  /** A follow-up steer is in flight for the active turn and carries the queue's head. */
  predicate Flight(s: State) {
    && !s.fenced && Conserved(s) && s.pc == AwaitDone
    && s.turn.Some? && s.steer.Some?
    && s.steer.value.epoch == s.turn.value.epoch
    && |s.queue| > 0 && s.queue[0] == s.steer.value.dispatch.input
    && s.turn.value.phase != Fenced && |s.turn.value.accepted| >= 1
  }

  lemma FinalizedFlight(s: State)
    requires Flight(s) && s.turn.value.completed
    ensures var s1 := Step(s, TurnDone);
            && !s1.fenced && s1.turn.None? && s1.pc == Returned && s1.queue == s.queue && s1.steer == s.steer
            && s1.inbound == s.inbound
            && Answered(s1.finals) == Answered(s.finals) + Members(s.turn.value.accepted)
  {
    FinalizeAnswers(s, s.turn.value);
  }

  lemma StraySteerDropsHead(s: State)
    requires s.turn.None? && s.pc == Returned && s.steer.Some? && |s.queue| > 0 && s.queue[0] == s.steer.value.dispatch.input
    ensures Step(s, SteerResponse(Some(s.steer.value.expected))) == s.(queue := s.queue[1..], steer := None)
  {}

  /** If its turn is settled first, the steer's acceptance loses that input. */
  lemma SettledFlightLosesInput(s: State)
    requires Flight(s) && s.turn.value.completed
    ensures var s' := Run(s, [TurnDone] + ([SteerResponse(Some(s.steer.value.expected))] + []));
            !s'.fenced && !Conserved(s')
  {
    var steered := SteerResponse(Some(s.steer.value.expected));
    var s1 := Step(s, TurnDone);
    RunCons(s, TurnDone, [steered] + []);
    RunCons(s1, steered, []);
    FinalizedFlight(s);
    StraySteerDropsHead(s1);
    var s2 := s1.(queue := s.queue[1..], steer := None);
    assert |Answered(s2.finals) + InHand(s2) + s2.queue| == |s.inbound| - 1;
  }

  /** A lookup under way may fail at any moment, which settles its turn. */
  lemma LookedUpFlightLosesInput(s: State)
    requires Flight(s) && Identified(s) && !s.turn.value.completed && s.turn.value.lookup.SingleLookup?
    ensures var s' := Run(s, [HistoryScanned([], true, false)]
                             + ([TurnDone] + ([SteerResponse(Some(s.steer.value.expected))] + [])));
            !s'.fenced && !Conserved(s')
  {
    var failed := HistoryScanned([], true, false);
    RunCons(s, failed, [TurnDone] + ([SteerResponse(Some(s.steer.value.expected))] + []));
    FailedLookupConflicts(s);
    ConflictedFlight(s);
    SettledFlightLosesInput(Step(s, failed));
  }

  lemma FailedLookupConflicts(s: State)
    requires s.turn.Some? && s.turn.value.lookup.SingleLookup? && s.turn.value.clientId.Some? && !s.turn.value.completed
    ensures Step(s, HistoryScanned([], true, false)) == ReportConflict(FinishLookup(s), LookupFailed)
  {}

  lemma ConflictedFlight(s: State)
    requires Flight(s) && !s.turn.value.completed && !s.turn.value.conflictReported
    ensures var s1 := ReportConflict(FinishLookup(s), LookupFailed);
            Flight(s1) && s1.turn.value.completed && s1.steer == s.steer
  {}

  /** The steer's turn stays open and uncontradicted. */
  predicate Riding(s: State) {
    && Flight(s)
    && var t := s.turn.value;
    && !t.completed && !t.conflictReported && t.requestAccepted && RootSteerable(t) && t.lookup == NoLookup
    && t.canonical == Some(s.steer.value.expected) && (t.nativeId.None? || t.nativeId == t.canonical)
  }

  predicate SamePendings(s: State, s': State) {
    && s.turn.Some? && s'.turn.Some? && s'.turn.value.pendingCompletions == s.turn.value.pendingCompletions
    && s'.turn.value.nativeId == s.turn.value.nativeId
    && s'.turn.value.clientId == s.turn.value.clientId && s'.turn.value.kind == s.turn.value.kind
    && s'.steer == s.steer
  }

  lemma ProofKeepsRiding(s: State, exact: bool)
    requires Riding(s) && s.turn.value.nativeId.Some?
    ensures var t' := ProveStarted(s.turn.value, s.turn.value.nativeId.value, exact).(serverStarted := true);
            Riding(With(s, t')) && SamePendings(s, With(s, t'))
  {}

  lemma RidingAdmitsNothing(s: State, id: Id, note: Note)
    requires s.turn.Some? && s.turn.value.nativeId == Some(id) && s.steer.Some? && note.Started?
    ensures AfterStarted(s, id, note) == With(s, s.turn.value.(serverStarted := true))
  {}

  lemma SlotKeepsRiding(s: State, native: Option<Id>)
    requires Riding(s)
    ensures Riding(s.(nativeActive := native))
  {}

  lemma StartedForKeepsRiding(s: State, turnParam: Option<Id>, rec: NativeTurn)
    requires Riding(s) && s.turn.value.nativeId.Some?
    ensures var s' := OnStartedFor(s, s.turn.value, s.turn.value.nativeId.value, turnParam, rec);
            Riding(s') && SamePendings(s, s')
  {
    var id := s.turn.value.nativeId.value;
    var exact := |ExactFor(rec, s.turn.value.clientId)| == 1;
    ProofKeepsRiding(s, exact);
    RidingAdmitsNothing(With(s, ProveStarted(s.turn.value, id, exact)), id, Started(turnParam, rec));
  }

  lemma StartedKeepsRiding(s: State, turnParam: Option<Id>, rec: NativeTurn)
    requires Riding(s) && NoteId(turnParam, rec) == s.turn.value.nativeId
    ensures Riding(OnStarted(s, turnParam, rec, true)) && SamePendings(s, OnStarted(s, turnParam, rec, true))
  {
    var id := s.turn.value.nativeId;
    if id.Some? {
      var s1 := if s.nativeActive.None? || s.nativeActive == id then s.(nativeActive := id) else s;
      SlotKeepsRiding(s, id);
      StartedForKeepsRiding(s1, turnParam, rec);
    } else {
      BusyKeepsRiding(s);
    }
  }

  lemma BusyKeepsRiding(s: State)
    requires Riding(s)
    ensures Riding(PublishBusy(s)) && SamePendings(s, PublishBusy(s))
  {}

  lemma CompletedKeepsRiding(s: State, turnParam: Option<Id>, rec: NativeTurn)
    requires Riding(s)
    ensures Riding(OnCompleted(s, turnParam, rec)) && SamePendings(s, OnCompleted(s, turnParam, rec))
  {
    var id := NoteId(turnParam, rec);
    var s1 := ClearNative(s, id);
    assert OnCompleted(s, turnParam, rec) == With(s1, HoldCompletion(s.turn.value, id, rec));
  }

  lemma TextKeepsRiding(s: State, note: Note)
    requires Riding(s)
    ensures Riding(With(s, Hear(s.turn.value, note))) && SamePendings(s, With(s, Hear(s.turn.value, note)))
  {
    hide Heard, Members, Answered;
  }

  lemma UsageKeepsRiding(s: State, usage: map<Id, Usage>)
    requires Riding(s)
    ensures Riding(s.(usage := usage)) && SamePendings(s, s.(usage := usage))
  {}

  lemma RidingIsAccepted(s: State)
    requires Riding(s)
    ensures s.turn.Some? && s.turn.value.requestAccepted && SamePendings(s, s)
  {}

  lemma ProgressKeepsRiding(s: State, note: Note)
    requires Riding(s) && !note.Started? && !note.Completed?
    ensures Riding(OnNote(s, note, true)) && SamePendings(s, OnNote(s, note, true))
  {
    hide Riding, SamePendings, Hear;
    RidingIsAccepted(s);
    TextKeepsRiding(s, note);
    UsageKeepsRiding(s, OnNote(s, note, true).usage);
  }

  lemma NoteKeepsRiding(s: State, note: Note)
    requires Riding(s)
    requires note.Started? ==> NoteId(note.turnParam, note.rec) == s.turn.value.nativeId
    ensures Riding(OnNote(s, note, true)) && SamePendings(s, OnNote(s, note, true))
  {
    hide Riding, SamePendings, OnStarted, OnCompleted, OnTokenUsage, OnProgress;
    match note {
      case Started(turnParam, rec) => StartedKeepsRiding(s, turnParam, rec);
      case Completed(turnParam, rec) => CompletedKeepsRiding(s, turnParam, rec);
      case _ => ProgressKeepsRiding(s, note);
    }
  }

  lemma {:induction false} ReplayKeepsRiding(s: State, notes: seq<Note>)
    requires Riding(s)
    ensures Riding(Replay(s, notes)) && SamePendings(s, Replay(s, notes))
    decreases |notes|
  {
    if notes != [] {
      var note := notes[0];
      var id := if note.Started? || note.Completed? then NoteId(note.turnParam, note.rec) else note.turnParam;
      if id == s.turn.value.nativeId { NoteKeepsRiding(s, note); }
      ReplayKeepsRiding(if id == s.turn.value.nativeId then OnNote(s, note, true) else s, notes[1..]);
    }
  }

  /** Its turn has been claimed by another settlement, or is settled already. */
  predicate Claimed(s: State) {
    Flight(s) && (s.turn.value.completed || s.turn.value.lookup.SingleLookup?)
  }

  lemma ReworkClaims(s: State, s': State)
    requires Flight(s) && s'.turn.Some?
    requires s' == s.(turn := s'.turn, nativeActive := s'.nativeActive)
    requires s'.turn.value.accepted == s.turn.value.accepted && s'.turn.value.epoch == s.turn.value.epoch
    requires s'.turn.value.phase == s.turn.value.phase
    requires s'.turn.value.completed || s'.turn.value.lookup.SingleLookup?
    ensures Claimed(s') && s'.steer == s.steer
  {}

  lemma SettlementsClaim(s: State, rec: NativeTurn, index: Option<nat>, reason: Reason)
    requires Riding(s) && rec.terminal
    ensures Claimed(CompleteSingle(s, rec, index)) && CompleteSingle(s, rec, index).steer == s.steer
    ensures Claimed(ReportConflict(s, reason)) && ReportConflict(s, reason).steer == s.steer
  {
    ReworkClaims(s, CompleteSingle(s, rec, index));
    ReworkClaims(s, ReportConflict(s, reason));
  }

  lemma LookupClaims(s: State, keepPending: bool)
    requires Riding(s)
    ensures Claimed(StartSingleLookup(s, keepPending)) && StartSingleLookup(s, keepPending).steer == s.steer
  {}

  /** Idle buffered completions are exactly those that leave an open turn alone. */
  lemma IdleExactlySettleNothing(s: State, pendings: seq<NativeTurn>)
    requires s.turn.Some? && !s.turn.value.completed && !s.turn.value.conflictReported && s.turn.value.lookup == NoLookup
    ensures var t := s.turn.value;
            SettleFrom(s, pendings) == s <==> IdlePendings(pendings, t.clientId, t.nativeId, t.kind)
  {
    hide ExactPendings, NativePendings, CompleteSingle, ReportConflict, StartSingleLookup;
    var exact := ExactPendings(pendings, s.turn.value.clientId);
    var natives := NativePendings(pendings, s.turn.value.nativeId);
    if |exact| == 1 { CompletionChanges(s, exact[0].0, Some(exact[0].1)); }
    if |natives| == 1 { CompletionChanges(s, natives[0], None); }
    ConflictChanges(s, ManyPreResponse);
    LookupChanges(s, |natives| != 1);
  }

  lemma CompletionChanges(s: State, rec: NativeTurn, index: Option<nat>)
    requires s.turn.Some? && !s.turn.value.completed
    ensures CompleteSingle(s, rec, index) == s <==> !rec.terminal
  {
    if rec.terminal { assert CompleteSingle(s, rec, index).turn.value.completed; }
  }

  lemma ConflictChanges(s: State, reason: Reason)
    requires s.turn.Some? && !s.turn.value.completed && !s.turn.value.conflictReported
    ensures ReportConflict(s, reason) != s
  {
    assert ReportConflict(s, reason).turn.value.completed;
  }

  lemma LookupChanges(s: State, keepPending: bool)
    requires s.turn.Some? && !s.turn.value.completed && !s.turn.value.conflictReported && s.turn.value.lookup == NoLookup
    ensures StartSingleLookup(s, keepPending) != s
  {
    if s.turn.value.clientId.None? { ConflictChanges(s, NoClientId); }
    else { assert StartSingleLookup(s, keepPending).turn.value.lookup.SingleLookup?; }
  }

  /** Any other buffered completions claim the turn although a steer is in flight for it. */
  lemma PendingsClaimTheTurn(s: State, pendings: seq<NativeTurn>)
    requires Riding(s)
    requires !IdlePendings(pendings, s.turn.value.clientId, s.turn.value.nativeId, s.turn.value.kind)
    ensures Claimed(SettleFrom(s, pendings)) && SettleFrom(s, pendings).steer == s.steer
  {
    var t := s.turn.value;
    var exact := ExactPendings(pendings, t.clientId);
    var native := NativePendings(pendings, t.nativeId);
    if |exact| == 1 { SettlementsClaim(s, exact[0].0, Some(exact[0].1), NoMatch); }
    else if |exact| > 1 || |native| > 1 { SettlementsClaim(s, THIN, None, ManyPreResponse); }
    else if |native| == 1 && t.kind != SteerRequest { SettlementsClaim(s, native[0], None, NoMatch); }
    else { LookupClaims(s, |native| != 1); }
  }

  // ---- The missing guard is exactly what is missing ---------------------------------------

  /** A promise breaks: an input is lost before any fence, or a final follows the fence. */
  predicate Breaks(s: State, before: seq<Event>, after: seq<Event>) {
    var s1 := Run(s, before);
    if s1.fenced then Run(s1, after).finals != s1.finals else !Conserved(s1)
  }

  function FailThenFinalize(s: State): seq<Event>
    requires s.steer.Some?
  {
    [HistoryScanned([], true, false)] + ([TurnDone] + ([SteerResponse(Some(s.steer.value.expected))] + []))
  }

  lemma ClaimedFlightBreaks(s: State)
    requires Claimed(s) && Identified(s)
    ensures Breaks(s, FailThenFinalize(s), [])
  {
    if s.turn.value.completed {
      // The lookup, if there is one, has nothing left to settle.
      var failed := HistoryScanned([], true, false);
      var s1 := Step(s, failed);
      RunCons(s, failed, [TurnDone] + ([SteerResponse(Some(s.steer.value.expected))] + []));
      FailedLookupOfSettledTurn(s);
      SettledFlightLosesInput(s1);
    } else {
      LookedUpFlightLosesInput(s);
    }
  }

  lemma FinishedLookupFlies(s: State)
    requires Flight(s) && s.turn.value.completed
    ensures Flight(FinishLookup(s))
  {}

  lemma FailedLookupOfSettledTurn(s: State)
    requires Flight(s) && s.turn.value.completed
    ensures var s1 := Step(s, HistoryScanned([], true, false));
            Flight(s1) && s1.turn.value.completed && s1.steer == s.steer
  {
    var s1 := Step(s, HistoryScanned([], true, false));
    assert s1 == s || s1 == FinishLookup(s);
    FinishedLookupFlies(s);
  }

  lemma AdmissionOverLookupBreaks(s: State)
    requires Live(s) && !s.fenced && Identified(s) && Admits(s) && s.turn.value.lookup != NoLookup
    ensures Breaks(TryAdmitSteer(s), FailThenFinalize(TryAdmitSteer(s)), [])
  {
    ClaimedFlightBreaks(TryAdmitSteer(s));
  }

  /** A response under which the buffered completions settle the turn. */
  function SettlingResponse(t: Turn): Option<Id> {
    if IdlePendings(t.pendingCompletions, t.clientId, t.canonical, t.kind) then None else t.canonical
  }

  lemma AcceptedRootRides(s: State, respId: Option<Id>)
    requires Live(s) && !s.fenced && Identified(s) && Admits(s) && s.pc == AwaitResponse && s.turn.value.lookup == NoLookup
    requires respId == s.turn.value.canonical || (respId.None? && s.turn.value.nativeId.None?)
    ensures var s1 := TryAdmitSteer(s);
            var s2 := AcceptRoot(s1, respId);
            && Riding(s2) && s2.steer == s1.steer && s2.turn.value.nativeId == respId
            && s2.turn.value.pendingCompletions == s.turn.value.pendingCompletions
            && s2.turn.value.clientId == s.turn.value.clientId && s2.turn.value.kind == s.turn.value.kind
            && Step(s1, RootResponse(respId)) == AfterAccept(s2)
  {
    hide PendingsIdle, AfterAccept, Unclaimed;
  }

  lemma RidingIsNotSettled(s: State)
    requires Riding(s)
    ensures SettleAfterResponse(s) == s
  {}

  lemma AdmissionOverPendingsBreaks(s: State)
    requires Live(s) && !s.fenced && Identified(s) && Admits(s) && s.pc == AwaitResponse && s.turn.value.lookup == NoLookup
    requires var t := s.turn.value; !PendingsIdle(t.pendingCompletions, t.clientId, t.canonical, t.nativeId, t.kind)
    ensures var s1 := TryAdmitSteer(s);
            Breaks(s1, [RootResponse(SettlingResponse(s.turn.value))] + FailThenFinalize(s1), [])
  {
    hide Replay, SettleFrom, IdlePendings;
    var respId := SettlingResponse(s.turn.value);
    var s1 := TryAdmitSteer(s);
    var response := RootResponse(respId);
    AcceptedRootRides(s, respId);
    var s2 := AcceptRoot(s1, respId);
    RidingIsNotSettled(s2);
    var t2 := s2.turn.value;
    var s3 := With(s2, t2.(pendingNotes := []));
    ReplayKeepsRiding(s3, t2.pendingNotes);
    var s4 := ReplayNotes(s2);
    var s5 := With(s4, s4.turn.value.(pendingCompletions := []));
    PendingsClaimTheTurn(s5, s4.turn.value.pendingCompletions);
    var s6 := SettlePendings(s4);
    assert KickAfterResponse(s6) == s6;
    TryAdmitSteerSteady(s);
    OnRootResponseCalm(s1, respId);
    ClaimedFlightBreaks(s6);
    RunCons(s1, response, FailThenFinalize(s1));
  }

  // A steer admitted after runTurn threw outlives its turn: the drain loop answers the root
  // with a failure and starts the steered head as a turn of its own; the steer's late
  // response then fences the generation, but not that turn, which still delivers a final.

  lemma ThrownTurnIsAnswered(s: State)
    requires Live(s) && !s.fenced && Admits(s) && s.pc.Threw?
    ensures var s1 := TryAdmitSteer(s);
            var s2 := Step(s1, DrainResumed);
            && s2.pc == Dequeued(s.queue[0]) && s2.queue == s.queue[1..] && s2.turn.None? && !s2.fenced
            && s2.steer == s1.steer
  {}

  lemma HeadIsUnique(s: State)
    requires Live(s) && |s.queue| > 1
    ensures s.queue[0] != s.queue[1]
  {
    var n := |Answered(s.finals)| + |InHand(s)|;
    assert s.inbound == (Answered(s.finals) + InHand(s)) + s.queue;
    assert s.inbound[n] == s.queue[0] && s.inbound[n + 1] == s.queue[1];
  }

  lemma LateSteerFencesWithoutTurn(s: State)
    requires s.turn.None? && s.steer.Some? && (|s.queue| > 0 ==> s.queue[0] != s.steer.value.dispatch.input)
    ensures Step(s, SteerResponse(Some(s.steer.value.expected))) == s.(steer := None, fenced := true)
  {}

  const THIN := NativeTurn(None, true, false, [], None)

  /** The late turn: accepted by the server, open, unclaimed. */
  predicate LateTurn(t: Turn) {
    && |t.accepted| == 1 && t.requestAccepted && t.nativeId == Some(0) && t.phase == Open
    && !t.completed && !t.conflictReported && t.lookup == NoLookup
  }

  lemma ThinCompletionIsRouted(s: State)
    requires s.turn.Some? && s.steer.None? && LateTurn(s.turn.value)
    ensures var s0 := ClearNative(s, Some(0));
            Step(s, Notify(Completed(Some(0), THIN)))
            == if s.turn.value.kind == StartRequest then CompleteSingle(s0, THIN, None) else StartSingleLookup(s0, false)
  {
    assert With(ClearNative(s, Some(0)), s.turn.value) == ClearNative(s, Some(0));
    assert Step(s, Notify(Completed(Some(0), THIN)))
        == OnSingleCompleted(ClearNative(s, Some(0)), s.turn.value, Some(0), THIN);
  }

  predicate SettledOrLookedUp(t: Turn) {
    (t.completed && t.lookup == NoLookup) || (t.lookup.SingleLookup? && t.clientId.Some? && !t.conflictReported)
  }

  lemma ThinCompletionClaims(s: State, kind: RequestKind)
    requires s.turn.Some? && LateTurn(s.turn.value)
    ensures var s1 := if kind == StartRequest then CompleteSingle(s, THIN, None) else StartSingleLookup(s, false);
            && s1.turn.Some? && s1.pc == s.pc && s1.finals == s.finals
            && s1.turn.value.phase == Open && s1.turn.value.accepted == s.turn.value.accepted
            && SettledOrLookedUp(s1.turn.value)
  {
    hide ClearNative, ReportConflict;
    LateTurnConflicts(s);
    assert ClearNative(s, THIN.id) == s by { ClearsNothing(s); }
  }

  lemma ClearsNothing(s: State)
    ensures ClearNative(s, None) == s
  {}

  lemma LateTurnConflicts(s: State)
    requires s.turn.Some? && LateTurn(s.turn.value)
    ensures var s1 := ReportConflict(s, NoClientId);
            && s1.turn.Some? && s1.pc == s.pc && s1.finals == s.finals
            && s1.turn.value.phase == Open && s1.turn.value.accepted == s.turn.value.accepted
            && s1.turn.value.completed && s1.turn.value.lookup == NoLookup
  {}

  lemma FailedLookupCompletes(s: State)
    requires s.turn.Some? && s.turn.value.phase == Open
    requires SettledOrLookedUp(s.turn.value)
    ensures var s1 := Step(s, HistoryScanned([], true, false));
            && s1.turn.Some? && s1.turn.value.completed && s1.pc == s.pc && s1.finals == s.finals
            && s1.turn.value.phase == Open && s1.turn.value.accepted == s.turn.value.accepted
  {
    if s.turn.value.completed {
      FailedLookupOfCompleted(s);
    } else {
      FailedLookupConflicts(s);
      ConflictCompletes(s);
    }
  }

  lemma FailedLookupOfCompleted(s: State)
    requires s.turn.Some? && s.turn.value.completed
    ensures var s1 := Step(s, HistoryScanned([], true, false)); s1 == s || s1 == FinishLookup(s)
  {}

  lemma ConflictCompletes(s: State)
    requires s.turn.Some? && !s.turn.value.conflictReported
    ensures var s1 := ReportConflict(FinishLookup(s), LookupFailed);
            && s1.turn.Some? && s1.turn.value.completed && s1.pc == s.pc && s1.finals == s.finals
            && s1.turn.value.phase == s.turn.value.phase && s1.turn.value.accepted == s.turn.value.accepted
  {}

  lemma FencedTurnCompletes(s: State)
    requires s.turn.Some? && s.steer.None? && s.pc == AwaitDone && LateTurn(s.turn.value)
    ensures var s1 := Step(s, Notify(Completed(Some(0), THIN)));
            var s2 := Step(s1, HistoryScanned([], true, false));
            && s2.turn.Some? && s2.turn.value.completed && s2.pc == AwaitDone && s2.finals == s.finals
            && s2.turn.value.phase == Open && |s2.turn.value.accepted| == 1
  {
    ThinCompletionIsRouted(s);
    ThinCompletionClaims(ClearNative(s, Some(0)), s.turn.value.kind);
    FailedLookupCompletes(Step(s, Notify(Completed(Some(0), THIN))));
  }

  lemma OpenTurnIsAnswered(s: State)
    requires s.turn.Some? && s.turn.value.completed && s.pc == AwaitDone && s.turn.value.phase == Open
    requires |s.turn.value.accepted| == 1
    ensures |Step(s, TurnDone).finals| == |s.finals| + 1
  {
    EmitGroupFinals(s, s.turn.value, 0);
  }

  function Strays(s: State): seq<Event>
    requires s.steer.Some?
  {
    [DrainResumed] + ([SteerResponse(Some(s.steer.value.expected))] + [])
  }

  const LATE_TURN: seq<Event> :=
    [ThreadReady] + ([RootResponse(Some(0))] + ([Notify(Completed(Some(0), THIN))]
    + ([HistoryScanned([], true, false)] + ([TurnDone] + []))))

  lemma FencedRunnerAnswers(s: State)
    requires s.fenced && s.steer.None? && s.pc.Dequeued?
    ensures |Run(s, LATE_TURN).finals| == |s.finals| + 1
  {
    var s1 := Step(s, ThreadReady);
    var s2 := Step(s1, RootResponse(Some(0)));
    var s3 := Step(s2, Notify(Completed(Some(0), THIN)));
    var s4 := Step(s3, HistoryScanned([], true, false));
    var e4 := [TurnDone] + [];
    var e3 := [HistoryScanned([], true, false)] + e4;
    var e2 := [Notify(Completed(Some(0), THIN))] + e3;
    var e1 := [RootResponse(Some(0))] + e2;
    RunCons(s, ThreadReady, e1);
    RunCons(s1, RootResponse(Some(0)), e2);
    RunCons(s2, Notify(Completed(Some(0), THIN)), e3);
    RunCons(s3, HistoryScanned([], true, false), e4);
    RunCons(s4, TurnDone, []);
    LateTurnSteps(s, s1, s2, s3, s4);
  }

  lemma LateTurnSteps(s: State, s1: State, s2: State, s3: State, s4: State)
    requires s.fenced && s.steer.None? && s.pc.Dequeued?
    requires s1 == Step(s, ThreadReady) && s2 == Step(s1, RootResponse(Some(0)))
    requires s3 == Step(s2, Notify(Completed(Some(0), THIN))) && s4 == Step(s3, HistoryScanned([], true, false))
    ensures |Step(s4, TurnDone).finals| == |s.finals| + 1
  {
    LateTurnBegins(s, s1, s2);
    FencedTurnCompletes(s2);
    OpenTurnIsAnswered(s4);
  }

  lemma LateTurnBegins(s: State, s1: State, s2: State)
    requires s.fenced && s.steer.None? && s.pc.Dequeued?
    requires s1 == Step(s, ThreadReady) && s2 == Step(s1, RootResponse(Some(0)))
    ensures s2.turn.Some? && s2.steer.None? && s2.pc == AwaitDone && s2.finals == s.finals && LateTurn(s2.turn.value)
  {
    assert s1 == BeginTurn(s, s.pc.input);
    FencedBegun(s1);
  }

  lemma FencedBegun(s: State)
    requires s.fenced && s.steer.None? && s.pc == AwaitResponse && s.turn.Some?
    requires var t := s.turn.value;
             && t.proof.None? && t.canonical.None? && t.phase == Starting && |t.accepted| == 1 && !t.completed
             && !t.completionSeen && t.terminal.None? && t.pendingNotes == [] && t.pendingCompletions == []
             && !t.conflictReported && t.lookup == NoLookup
    ensures var s' := Step(s, RootResponse(Some(0)));
            && s'.pc == AwaitDone && s'.finals == s.finals && s'.steer.None? && s'.turn.Some? && LateTurn(s'.turn.value)
  {
    var s2 := AcceptRoot(s, Some(0));
    assert SettleAfterResponse(s2) == s2;
    assert ReplayNotes(s2) == s2;
    assert SettlePendings(s2) == s2;
    assert KickAfterResponse(s2) == s2;
  }

  lemma AdmissionAfterThrowBreaks(s: State)
    requires Live(s) && !s.fenced && Admits(s) && s.pc.Threw?
    ensures Breaks(TryAdmitSteer(s), Strays(TryAdmitSteer(s)), LATE_TURN)
  {
    var s1 := TryAdmitSteer(s);
    var s2 := Step(s1, DrainResumed);
    ThrownTurnIsAnswered(s);
    if |s.queue| > 1 { HeadIsUnique(s); }
    LateSteerFencesWithoutTurn(s2);
    var steered := SteerResponse(Some(s1.steer.value.expected));
    RunCons(s1, DrainResumed, [steered] + []);
    RunCons(s2, steered, []);
    FencedRunnerAnswers(s2.(steer := None, fenced := true));
  }

  /** The guard the program lacks is exactly what its promises need. A steer admitted although
      another settlement has a claim on its turn can always be followed by events that break
      one of them; every run without such an admission keeps them (NoInputIsLost,
      FenceIsAbsorbing). */
  lemma MissingGuardIsNecessary(s: State) returns (before: seq<Event>, after: seq<Event>)
    requires Live(s) && !s.fenced && Identified(s) && Rested(s)
    requires Admits(s) && !Unclaimed(s, s.turn.value)
    ensures Breaks(TryAdmitSteer(s), before, after)
  {
    hide IdlePendings;
    var s1 := TryAdmitSteer(s);
    if s.turn.value.lookup != NoLookup {
      AdmissionOverLookupBreaks(s);
      before, after := FailThenFinalize(s1), [];
    } else if s.pc.Threw? {
      AdmissionAfterThrowBreaks(s);
      before, after := Strays(s1), LATE_TURN;
    } else {
      NothingBufferedIsIdle(s.turn.value);
      AdmissionOverPendingsBreaks(s);
      before, after := [RootResponse(SettlingResponse(s.turn.value))] + FailThenFinalize(s1), [];
    }
  }

  lemma NothingBufferedIsIdle(t: Turn)
    ensures t.pendingCompletions == [] ==>
              PendingsIdle(t.pendingCompletions, t.clientId, t.canonical, t.nativeId, t.kind)
  {}
}
