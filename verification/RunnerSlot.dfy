/** Which native turn counts as open. The slot gates the drain loop, decides whether a root is steered,
    and holds back the idle state; a turn/started sets it and the turn's end is to clear it. */
module RunnerSlot {
  import opened Prelude
  import opened NativeTurns
  import opened RunnerTypes
  import opened RunnerSteps
  import opened RunnerIdentity
  import opened RunnerInvariants
  import opened RunnerRuns
  import opened RunnerGuarantees
  import opened RunnerSettlements
  import opened RunnerShortfalls
  import opened RunnerProofs
  import opened RunnerGoalEntry
  import opened RunnerBarriers
  import opened RunnerDelivery
  import opened RunnerReplacements

  // ---- Starts and ends -----------------------------------------------------------------------

  predicate SameSlot(s: State, s': State) {
    s'.nativeActive == s.nativeActive
  }

  lemma AdmissionKeepsSlot(s: State)
    ensures SameSlot(s, TryAdmitSteer(s)) && SameSlot(s, PublishBusy(s)) && SameSlot(s, SettleState(s))
    ensures SameSlot(s, KickDrain(s)) && SameSlot(s, EndOfBody(s))
  {
    hide Admits, GateCloses;
  }

  lemma StartedForKeepsSlot(s: State, id: Id, turnParam: Option<Id>, rec: NativeTurn)
    requires s.turn.Some?
    ensures SameSlot(s, OnStartedFor(s, s.turn.value, id, turnParam, rec))
  {
    hide ExactFor, AfterStarted;
    var exact := |ExactFor(rec, s.turn.value.clientId)| == 1;
    AfterStartedKeepsSlot(With(s, ProveStarted(s.turn.value, id, exact)), id, Started(turnParam, rec));
  }

  lemma AfterStartedKeepsSlot(s: State, id: Id, note: Note)
    requires s.turn.Some? && note.Started?
    ensures SameSlot(s, AfterStarted(s, id, note))
  {
    hide TryAdmitSteer, PublishBusy, ExactProof, HoldsStart;
    AdmissionKeepsSlot(s);
    AdmissionKeepsSlot(With(s, s.turn.value.(serverStarted := true)));
  }

  /** A turn/started opens the slot for the turn it names, whatever was open; one that was held back and
      is replayed opens it only if no other turn is open. */
  lemma StartOpensSlot(s: State, turnParam: Option<Id>, rec: NativeTurn, replayed: bool)
    ensures var id, s' := NoteId(turnParam, rec), OnStarted(s, turnParam, rec, replayed);
            s'.nativeActive == if id.Some? && (replayed ==> s.nativeActive.None?) then id else s.nativeActive
  {
    hide OnStartedFor, PublishBusy;
    var id := NoteId(turnParam, rec);
    AdmissionKeepsSlot(s);
    AdmissionKeepsSlot(s.(nativeActive := id));
    if id.Some? && s.turn.Some? {
      StartedForKeepsSlot(s, id.value, turnParam, rec);
      StartedForKeepsSlot(s.(nativeActive := id), id.value, turnParam, rec);
    }
  }

  /** The slot is kept or cleared. */
  predicate SlotShrinks(s: State, s': State) {
    s'.nativeActive == s.nativeActive || s'.nativeActive.None?
  }

  lemma SettlementsShrink(s: State, rec: NativeTurn, index: Option<nat>, reason: Reason)
    requires s.turn.Some?
    ensures SlotShrinks(s, CompleteSingle(s, rec, index)) && SlotShrinks(s, ReportConflict(s, reason))
    ensures SlotShrinks(s, FenceTurn(s))
  {
    hide Rebuild;
  }

  lemma GroupSettlementShrinks(s: State, rec: NativeTurn)
    requires s.turn.Some?
    ensures SlotShrinks(s, SettleSteered(s, rec)) && SlotShrinks(s, StartGroupLookup(s)) && SlotShrinks(s, StartSingleLookup(s, false))
  {
    hide Rebuild, VerifyGroup, ReportConflict;
    forall reason ensures SlotShrinks(s, ReportConflict(s, reason)) { SettlementsShrink(s, rec, None, reason); }
  }

  lemma GroupCompletionShrinks(s: State, id: Option<Id>, rec: NativeTurn)
    requires s.turn.Some?
    ensures SlotShrinks(s, OnGroupCompleted(s, s.turn.value, id, rec))
  {
    hide SettleSteered, StartGroupLookup;
    GroupSettlementShrinks(With(s, HoldCompletion(s.turn.value, id, rec)), rec);
  }

  lemma SingleCompletionShrinks(s: State, id: Option<Id>, rec: NativeTurn)
    requires s.turn.Some?
    ensures SlotShrinks(s, OnSingleCompleted(s, s.turn.value, id, rec))
  {
    hide ExactFor, CompleteSingle, StartSingleLookup, UpgradeByCompletion, SlotShrinks;
    assert With(s, s.turn.value) == s;
    var exact := ExactFor(rec, s.turn.value.clientId);
    SettlementsShrink(s, rec, if |exact| == 1 then Some(exact[0]) else None, NoMatch);
    SettlementsShrink(s, rec, None, NoMatch);
    GroupSettlementShrinks(s, rec);
    BufferShrinks(s, rec);
    if id.Some? { UpgradeShrinks(s, id.value, rec); }
  }

  lemma BufferShrinks(s: State, rec: NativeTurn)
    requires s.turn.Some?
    ensures SlotShrinks(s, With(s, s.turn.value.(pendingCompletions := s.turn.value.pendingCompletions + [rec])))
  {}

  lemma UpgradeShrinks(s: State, id: Id, rec: NativeTurn)
    requires s.turn.Some?
    ensures SlotShrinks(s, UpgradeByCompletion(s, id, rec))
  {}

  /** A turn/completed frees the slot of the turn it names, and without a tracked turn nothing else does. */
  lemma EndFreesSlot(s: State, turnParam: Option<Id>, rec: NativeTurn)
    ensures var id, s' := NoteId(turnParam, rec), Step(s, Notify(Completed(turnParam, rec)));
            && SlotShrinks(s, s')
            && (id.Some? ==> s'.nativeActive != id)
            && (s.turn.None? ==> s'.nativeActive == if id.Some? && s.nativeActive == id then None else s.nativeActive)
  {
    hide OnCompleted;
    if s.turn.Some? { TrackedEndFreesSlot(s, turnParam, rec); } else { StrayEndFreesSlot(s, turnParam, rec); }
  }

  lemma TrackedEndFreesSlot(s: State, turnParam: Option<Id>, rec: NativeTurn)
    requires s.turn.Some?
    ensures var id, s' := NoteId(turnParam, rec), OnCompleted(s, turnParam, rec);
            SlotShrinks(s, s') && (id.Some? ==> s'.nativeActive != id)
  {
    hide OnGroupCompleted, OnSingleCompleted, InGroupMode;
    var id := NoteId(turnParam, rec);
    var s1 := ClearNative(s, id);
    assert s1 == s.(nativeActive := s1.nativeActive);
    GroupCompletionShrinks(s1, id, rec);
    SingleCompletionShrinks(s1, id, rec);
  }

  lemma StrayEndFreesSlot(s: State, turnParam: Option<Id>, rec: NativeTurn)
    requires s.turn.None?
    ensures var id := NoteId(turnParam, rec);
            OnCompleted(s, turnParam, rec).nativeActive == if id.Some? && s.nativeActive == id then None else s.nativeActive
  {
    hide SettleState, KickDrain;
    var s1 := ClearNative(s, NoteId(turnParam, rec));
    assert s1 == s.(nativeActive := s1.nativeActive);
    AdmissionKeepsSlot(s1);
    AdmissionKeepsSlot(SettleState(s1));
  }

  // ---- Lookups ------------------------------------------------------------------------------------

  /** If the turn is settled under a native id, that native turn does not count as open. */
  predicate FreesItsSlot(s: State) {
    s.turn.Some? && s.turn.value.completed && s.turn.value.nativeId.Some? ==> s.nativeActive != s.turn.value.nativeId
  }

  lemma ConflictFreesSlot(s: State, reason: Reason)
    requires s.turn.Some? && !s.turn.value.conflictReported
    ensures FreesItsSlot(ReportConflict(FinishLookup(s), reason))
  {}

  lemma MatchFreesSlot(s: State, rec: NativeTurn, index: nat)
    requires s.turn.Some? && !s.turn.value.completed && rec.id.Some?
    ensures FreesItsSlot(CompleteSingle(FinishLookup(s), rec, Some(index)))
    ensures FreesItsSlot(AdoptMatch(FinishLookup(s), rec, index))
    ensures s.turn.value.canonical.Some? ==> AdoptMatch(FinishLookup(s), rec, index).nativeActive != s.turn.value.canonical
  {
    hide Rebuild;
  }

  lemma {:induction false} MatchesAreCandidates(candidates: seq<NativeTurn>, cid: Id, ids: seq<Id>)
    ensures forall m | m in SingleMatches(candidates, cid) :: m.0 in candidates
    ensures forall m | m in GroupMatches(candidates, ids) :: m.0 in candidates
    decreases |candidates|
  {
    hide ExactIndexes, VerifyGroup;
    if candidates != [] {
      MatchesAreCandidates(candidates[1..], cid, ids);
      assert candidates[0] in candidates && forall c | c in candidates[1..] :: c in candidates;
    }
  }

  /** A history lookup that settles its turn, by a match or by the identity error, frees the slot of the turn
      it settles it under, if the records it read name their turns. */
  lemma ScanFreesSlot(s: State, candidates: seq<NativeTurn>, failed: bool, expired: bool)
    requires Identified(s) && s.turn.Some? && !s.turn.value.completed && forall c | c in candidates :: c.id.Some?
    ensures FreesItsSlot(Step(s, HistoryScanned(candidates, failed, expired)))
  {
    hide ReportConflict, CompleteSingle, AdoptMatch, ExactIndexes, SingleMatches, GroupMatches, NoCompletions;
    var t := s.turn.value;
    forall reason ensures FreesItsSlot(ReportConflict(FinishLookup(s), reason)) { ConflictFreesSlot(s, reason); }
    if t.lookup.SingleLookup? {
      var matches := SingleMatches(candidates, t.clientId.value);
      MatchesAreCandidates(candidates, t.clientId.value, []);
      if |matches| == 1 { assert matches[0] in matches; MatchFreesSlot(s, matches[0].0, matches[0].1); }
    } else if t.lookup == GroupLookup {
      var matches := GroupMatches(candidates, SentIds(t.accepted));
      MatchesAreCandidates(candidates, 0, SentIds(t.accepted));
      if |matches| == 1 { assert matches[0] in matches; MatchFreesSlot(s, matches[0].0, matches[0].1); }
    }
  }

  // ---- The replay of a held start ------------------------------------------------------------------

  /** A turn/started of the turn is among the notes. */
  predicate StartHeld(notes: seq<Note>) {
    exists i | 0 <= i < |notes| :: notes[i].Started?
  }

  lemma OtherNotesKeepSlot(s: State, note: Note)
    requires !note.Started? && !note.Completed?
    ensures SameSlot(s, OnNote(s, note, true))
  {
    hide Hear;
  }

  lemma {:induction false} ReplayOpensSlot(s: State, notes: seq<Note>)
    requires Bound(s) && NoCompletions(notes) && s.turn.value.nativeId.Some?
    ensures var own, s' := Own(notes, s.turn.value.nativeId), Replay(s, notes);
            s'.nativeActive == if StartHeld(own) && s.nativeActive.None? then s.turn.value.nativeId else s.nativeActive
    decreases |notes|
  {
    if notes != [] {
      hide OnNote, Bound;
      BoundIsAccepted(s);
      var note, rest := notes[0], notes[1..];
      var native := s.turn.value.nativeId;
      var own := Own(rest, native);
      assert NoCompletions(rest);
      if Owner(note) == native {
        HeldNoteStaysOpen(s, note);
        var s1 := OnNote(s, note, true);
        StaysBound(s, s1);
        BoundIsAccepted(s1);
        if note.Started? { StartIsReplayed(s, note); } else { OtherNotesKeepSlot(s, note); }
        ReplayOpensSlot(s1, rest);
        assert Replay(s, notes) == Replay(s1, rest);
        assert Own(notes, native) == [note] + own;
        FirstStart(note, own);
      } else {
        ReplayOpensSlot(s, rest);
        assert Replay(s, notes) == Replay(s, rest);
        assert Own(notes, native) == [] + own == own;
      }
    }
  }

  lemma StartIsReplayed(s: State, note: Note)
    requires note.Started? && Owner(note).Some?
    ensures OnNote(s, note, true).nativeActive == if s.nativeActive.None? then Owner(note) else s.nativeActive
  {
    hide OnStarted;
    StartOpensSlot(s, note.turnParam, note.rec, true);
  }

  lemma FirstStart(note: Note, rest: seq<Note>)
    ensures StartHeld([note] + rest) <==> note.Started? || StartHeld(rest)
  {
    var all := [note] + rest;
    assert forall i | 0 <= i < |rest| :: all[i + 1] == rest[i];
    if note.Started? { assert all[0].Started?; }
    if StartHeld(all) && !note.Started? {
      var i :| 0 <= i < |all| && all[i].Started?;
      assert rest[i - 1].Started?;
    }
  }

  /** The state after the response has settled its turn, or found it settled, before the held notes. */
  function SettledState(s: State, responseId: Option<Id>): State
    requires s.turn.Some?
  {
    SettleAfterResponse(AcceptRoot(s, ResponseId(s.turn.value, responseId)))
  }

  /** A completed lifecycle is resurrected exactly if a turn/started of it was held for the response: the
      replay opens the slot again for a turn that has ended, unless another turn is open by then. */
  lemma ResponseReopensExactly(s: State, responseId: Option<Id>)
    requires Answerable(s, responseId) && SettledAt(s, responseId).completed
    requires ResponseId(s.turn.value, responseId).Some?
    ensures var respId := ResponseId(s.turn.value, responseId);
            var slot := SettledState(s, responseId).nativeActive;
            Step(s, RootResponse(responseId)).nativeActive
            == if slot.None? && StartHeld(Own(s.turn.value.pendingNotes, respId)) then respId else slot
  {
    hide AcceptRoot, SettleAfterResponse, Replay, Sound, Identified, Own, StartHeld;
    var respId := ResponseId(s.turn.value, responseId);
    RequestedRoot(s);
    AcceptanceBinds(s, respId);
    var s0 := AcceptRoot(s, respId);
    SettleAfterResponseKeepsBinding(s0);
    var s1 := SettleAfterResponse(s0);
    var s2 := With(s1, s1.turn.value.(pendingNotes := []));
    ReplayOpensSlot(s2, s1.turn.value.pendingNotes);
    ReplayStaysOpen(s2, s1.turn.value.pendingNotes);
    AfterSettlementOnlyReplays(s0);
  }

  lemma AfterSettlementOnlyReplays(s: State)
    requires Bound(s) && NoCompletions(s.turn.value.pendingNotes)
    requires SettleAfterResponse(s).turn.Some? && SettleAfterResponse(s).turn.value.completed
    ensures AfterAccept(s).nativeActive == ReplayNotes(SettleAfterResponse(s)).nativeActive
  {
    hide SettleAfterResponse, Replay;
    SettleAfterResponseKeepsBinding(s);
    ReplayNotesSteady(SettleAfterResponse(s));
  }

  // ---- A slot that nothing frees ---------------------------------------------------------------------

  /** A head that may not enter the open native turn, with no turn tracked. */
  predicate Parked(s: State) {
    && s.pc == Idle && s.turn.None? && s.steer.None? && !s.fenced
    && s.nativeActive.Some? && |s.queue| > 0 && !s.queue[0].steerable
  }

  predicate IsNativeEdge(e: Event) {
    e.Notify? && (e.note.Started? || e.note.Completed?)
  }

  lemma ParkedStep(s: State, e: Event)
    requires Parked(s) && !IsNativeEdge(e)
    ensures var s' := Step(s, e);
            Parked(s') && s'.queue[0] == s.queue[0] && s'.nativeActive == s.nativeActive && s'.finals == s.finals
  {}

  /** Until the app-server starts or ends a native turn, a parked head stays where it is, whatever arrives. */
  lemma {:induction false} StaysParked(s: State, events: seq<Event>)
    requires Parked(s) && forall e | e in events :: !IsNativeEdge(e)
    ensures var s' := Run(s, events);
            Parked(s') && s'.queue[0] == s.queue[0] && s'.nativeActive == s.nativeActive && s'.finals == s.finals
    decreases |events|
  {
    if events != [] {
      hide Step, Parked;
      assert events[0] in events;
      assert forall e | e in events[1..] :: e in events;
      ParkedStep(s, events[0]);
      StaysParked(Step(s, events[0]), events[1..]);
    }
  }

  const BARE := NativeTurn(Some(10), false, false, [], None)
  const BEGUN := FreshTurn(None).(pendingNotes := [Started(None, BARE)])
  const ENDED_EARLY :=
    BEGUN.(canonical := Some(10), proof := Some(ExactCompleted), completionSeen := true, steeringClosed := true,
           terminal := Some(Reply(10, "done")))

  const EARLY_END_RUN: seq<Event> :=
    [Ask("first", 1)] + ([ThreadReady] + ([Notify(Started(None, BARE))]
    + ([Notify(Completed(None, Reply(10, "done")))] + [])))

  lemma BareStartIsHeld(s: State)
    requires s.turn == Some(FreshTurn(None)) && s.nativeActive.None?
    ensures Step(s, Notify(Started(None, BARE))) == s.(nativeActive := Some(10), turn := Some(BEGUN))
  {
    assert ExactFor(BARE, Some(1)) == [];
    assert [] + [Started(None, BARE)] == [Started(None, BARE)];
    assert ProveStarted(FreshTurn(None), 10, false) == FreshTurn(None);
  }

  lemma EarlyEndIsProof(s: State)
    requires s.turn == Some(BEGUN) && s.steer.None? && s.nativeActive == Some(10)
    ensures Step(s, Notify(Completed(None, Reply(10, "done")))) == s.(nativeActive := None, turn := Some(ENDED_EARLY))
  {
    hide UpgradeByCompletion, OnSingleCompleted, ExactIndexes;
    ReplyHoldsFirst(10, "done");
    var s1 := s.(nativeActive := None);
    EarlyEndIsTaken(s1);
    EarlyEndUpgrades(s1);
  }

  lemma EarlyEndIsTaken(s: State)
    requires s.turn == Some(BEGUN) && |ExactFor(Reply(10, "done"), Some(1))| == 1
    ensures OnSingleCompleted(s, BEGUN, Some(10), Reply(10, "done")) == UpgradeByCompletion(s, 10, Reply(10, "done"))
  {
    hide ExactFor, UpgradeByCompletion, CompleteSingle, StartSingleLookup;
    assert With(s, BEGUN) == s;
  }

  lemma EarlyEndUpgrades(s: State)
    requires s.turn == Some(BEGUN)
    ensures UpgradeByCompletion(s, 10, Reply(10, "done")) == s.(turn := Some(ENDED_EARLY))
  {}

  lemma EarlyEndRunEnds()
    ensures var s := Run(InitialState(CODEX), EARLY_END_RUN);
            && s.turn == Some(ENDED_EARLY) && s.pc == AwaitResponse && s.nativeActive.None? && s.steer.None?
            && !s.fenced && !s.overlapped && s.finals == [] && s.queue == [] && Sound(s) && Identified(s)
  {
    hide Sound, Identified;
    var s0 := InitialState(CODEX);
    FirstIsDequeued(s0);
    var s1 := s0.(pc := Dequeued(FIRST), inbound := [FIRST]);
    FirstBegins(s1);
    var s2 := s1.(pc := AwaitResponse, epochs := 1, turn := Some(FreshTurn(None)));
    BareStartIsHeld(s2);
    var s3 := s2.(nativeActive := Some(10), turn := Some(BEGUN));
    EarlyEndIsProof(s3);
    var e3 := [Notify(Completed(None, Reply(10, "done")))] + [];
    var e2 := [Notify(Started(None, BARE))] + e3;
    RunCons(s0, Ask("first", 1), [ThreadReady] + e2);
    RunCons(s1, ThreadReady, e2);
    RunCons(s2, Notify(Started(None, BARE)), e3);
    RunCons(s3, Notify(Completed(None, Reply(10, "done"))), []);
    InitialSound(CODEX);
    RunFrom(s0, EARLY_END_RUN);
  }

  lemma ResponseSettlesEarlyEnd(s: State)
    requires s.turn == Some(ENDED_EARLY) && s.steer.None? && s.nativeActive.None?
    ensures !ContradictsProof(ENDED_EARLY, Some(10))
    ensures SettledAt(s, Some(10)).completed && SettledState(s, Some(10)).nativeActive.None?
  {
    ReplyHoldsFirst(10, "done");
    assert SentIds(ENDED_EARLY.accepted) == [1] by {
      assert ENDED_EARLY.accepted[1..] == [];
    }
    var s0 := AcceptRoot(s, Some(10));
    assert ResumeBuffered(s0) == s0;
    assert SettlesBuffered(s0);
    MatchedGroupSettles(s0, Reply(10, "done"), 0);
    MatchedFreesSlot(s0, Reply(10, "done"), 0);
  }

  lemma MatchedFreesSlot(s: State, rec: NativeTurn, lastIndex: nat)
    requires s.turn.Some? && !s.turn.value.completed && rec.id.Some? && s.nativeActive == rec.id
    requires VerifyGroup(rec, SentIds(s.turn.value.accepted)) == Matched(lastIndex)
    ensures SettleSteered(s, rec).nativeActive.None?
  {
    hide VerifyGroup, Rebuild;
  }

  /** A turn that its completion ended before the response is settled by the response, its slot is freed,
      and the replay of its turn/started opens the slot again. */
  lemma EndedTurnIsReopened()
    ensures var s := Run(InitialState(CODEX), EARLY_END_RUN);
            var s1 := Step(s, RootResponse(Some(10)));
            && s1.turn.Some? && s1.turn.value.completed && !s1.fenced && !s1.overlapped && s1.pc == AwaitDone
            && s1.finals == [] && s1.queue == [] && s1.steer.None? && s1.nativeActive == Some(10)
  {
    hide SettledAt, SettledState, Step, Sound, Identified;
    var s := Run(InitialState(CODEX), EARLY_END_RUN);
    EarlyEndRunEnds();
    ResponseSettlesEarlyEnd(s);
    ResponseReopensExactly(s, Some(10));
    SettledTextSurvivesExactly(s, Some(10));
    AnsweredPace(s, Some(10));
    BareStartIsOwn();
    AnsweredKeepsQueue(s);
    StepSound(s, RootResponse(Some(10)));
    SettledHasNoSteer(Step(s, RootResponse(Some(10))));
  }

  lemma BareStartIsOwn()
    ensures StartHeld(Own(ENDED_EARLY.pendingNotes, Some(10)))
  {
    var notes := [Started(None, BARE)];
    assert notes[1..] == [] && Own([], Some(10)) == [];
    assert Own(notes, Some(10)) == notes;
    assert notes[0].Started?;
  }

  lemma AnsweredKeepsQueue(s: State)
    requires Identified(s) && s.turn.Some?
    ensures Step(s, RootResponse(Some(10))).queue == s.queue
  {
    OnRootResponseCalm(s, Some(10));
  }

  lemma SettledHasNoSteer(s: State)
    requires Sound(s) && !s.overlapped && !s.fenced && s.turn.Some? && s.turn.value.completed
    ensures s.steer.None?
  {}

  /** Its final is emitted, the drain loop comes to rest with the slot still open, and the next plain line
      is parked behind a turn that has ended. */
  lemma RestWithOpenSlot(s: State, line: string)
    requires s.turn.Some? && s.turn.value.completed && !s.fenced && s.pc == AwaitDone && s.queue == []
    requires s.steer.None? && s.nativeActive.Some?
    ensures var s2 := Step(Step(s, TurnDone), DrainResumed);
            && s2.pc == Idle && s2.turn.None? && s2.nativeActive == s.nativeActive && !s2.idleTimer
            && Parked(Step(s2, PlainLine(line)))
            && Step(s2, PlainLine(line)).queue[0].content == line
            && Step(s2, PlainLine(line)).finals == s2.finals
  {
    hide EndOfBody, Receive;
    EmitGroupFrame(s, s.turn.value, 0);
    var s1 := Step(s, TurnDone);
    assert s1.turn.None? && s1.pc == Returned && s1.nativeActive == s.nativeActive && s1.queue == [];
    OpenSlotEnds(s1);
    LineIsParked(EndOfBody(s1), line);
  }

  lemma OpenSlotEnds(s: State)
    requires s.queue == [] && s.nativeActive.Some? && !s.fenced
    ensures var s' := EndOfBody(s);
            && s'.pc == Idle && s'.turn == s.turn && s'.nativeActive == s.nativeActive && s'.queue == []
            && s'.steer == s.steer && !s'.fenced && !s'.idleTimer && s'.finals == s.finals
  {}

  lemma LineIsParked(s: State, line: string)
    requires s.pc == Idle && s.turn.None? && s.nativeActive.Some? && s.queue == [] && s.steer.None? && !s.fenced
    ensures var s' := Step(s, PlainLine(line)); Parked(s') && s'.queue[0].content == line && s'.finals == s.finals
  {}

  /** An authorized input is instead steered into the turn that has ended. The app-server refuses it as inactive,
      and because the slot is still open the refusal is not taken as a Goal turn that is gone: it fences. */
  lemma SteerIntoEndedTurnFences(s: State, input: Input)
    requires s.pc == Dequeued(input) && s.turn.None? && s.nativeActive.Some? && !s.fenced
    ensures var s1 := Step(s, ThreadReady);
            && s1.turn.Some? && s1.turn.value.rpc.expected == s.nativeActive && s1.nativeActive == s.nativeActive
            && Step(s1, RootError(INACTIVE)).fenced
  {}

  /** Altogether: from the initial state, a turn that is answered in full leaves its slot open; every plain line
      then waits for as long as the app-server starts and ends nothing of its own. */
  lemma EndedTurnParksLine(line: string, events: seq<Event>)
    requires forall e | e in events :: !IsNativeEdge(e)
    ensures var s := Run(InitialState(CODEX), EARLY_END_RUN);
            var s2 := Step(Step(Step(s, RootResponse(Some(10))), TurnDone), DrainResumed);
            var s3 := Run(Step(s2, PlainLine(line)), events);
            && s2.pc == Idle && s2.turn.None? && s2.nativeActive == Some(10)
            && Parked(s3) && s3.queue[0].content == line && s3.finals == s2.finals
  {
    hide Step, Parked, Run;
    EndedTurnIsReopened();
    var s1 := Step(Run(InitialState(CODEX), EARLY_END_RUN), RootResponse(Some(10)));
    RestWithOpenSlot(s1, line);
    StaysParked(Step(Step(Step(s1, TurnDone), DrainResumed), PlainLine(line)), events);
  }
}
