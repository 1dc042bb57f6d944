/** The canonical native id: first proof wins. This holds on every run, overlapped or not. */
module RunnerIdentity {
  import opened Prelude
  import opened NativeTurns
  import opened RunnerTypes
  import opened RunnerSteps

  /** No turn/completed is ever held back for a replay. */
  predicate NoCompletions(notes: seq<Note>) {
    forall note | note in notes :: !note.Completed?
  }

  /** runTurn is under way. */
  predicate HasTurn(pc: DrainPc) {
    pc == AwaitResponse || pc == AwaitDone || pc.Threw?
  }

  /** Before the root's response an open turn has a canonical id only by an exact proof. */
  predicate IdentityOk(t: Turn) {
    && |t.accepted| >= 1
    && (ExactProof(t) ==> t.canonical.Some?)
    && (t.canonical.Some? && !t.requestAccepted ==> ExactProof(t) || t.completed)
    && (t.conflictReported ==> t.completed)
    && (t.lookup.SingleLookup? ==> t.clientId.Some?)
    && (t.lookup == Done ==> t.completed)
    && NoCompletions(t.pendingNotes)
  }

  predicate Identified(s: State) {
    && (s.turn.Some? ==>
          && IdentityOk(s.turn.value)
          && s.turn.value.epoch <= s.epochs
          && (s.pc == AwaitResponse ==> !s.turn.value.requestAccepted))
    && (s.steer.Some? ==> s.steer.value.dispatch.input.steerable)
  }

  /** How often the runner announced itself idle. */
  function IdleAnnouncements(published: seq<bool>): nat {
    if published == [] then 0
    else IdleAnnouncements(published[..|published| - 1]) + if published[|published| - 1] then 0 else 1
  }

  /** What no handler of an open turn does: drop the turn, reopen it, re-key its canonical
      id, emit a final or take an input; nor, once fenced, send a steer or publish idle. */
  predicate Calm(s: State, s': State) {
    && s'.turn.Some? == s.turn.Some?
    && (s.turn.Some? ==>
        && s'.turn.value.epoch == s.turn.value.epoch
        && s'.turn.value.accepted == s.turn.value.accepted
        && (s'.turn.value.rpc.expected.Some? ==> s.turn.value.rpc.expected.Some?)
        && (s.turn.value.canonical.Some? ==> s'.turn.value.canonical == s.turn.value.canonical)
        && (s.turn.value.completed ==> s'.turn.value.completed)
        && (s.turn.value.requestAccepted ==>
            && s'.turn.value.requestAccepted
            && (s.turn.value.pendingCompletions == [] ==> s'.turn.value.pendingCompletions == []))
        && (s'.pc == s.pc || (s.pc == AwaitResponse && (HasTurn(s'.pc) || (s'.fenced && s'.pc == Returned)))))
    && (Identified(s) ==> Identified(s'))
    && s'.finals == s.finals
    && s'.inbound == s.inbound
    && s'.epochs == s.epochs
    && (s.overlapped ==> s'.overlapped)
    && (s.steer.Some? ==> s'.steer == s.steer && s'.overlapped == s.overlapped)
    && (s.turn.Some? && s.turn.value.completed ==> s'.steer == s.steer && s'.overlapped == s.overlapped)
    && (s.turn.Some? || s.fenced ==> s'.queue == s.queue)
    && (s.fenced ==>
        && s'.fenced
        && s'.overlapped == s.overlapped
        && s'.steer == s.steer
        && (s'.pc.Dequeued? ==> s.pc.Dequeued?))
    && IdleAnnouncements(s'.published) == IdleAnnouncements(s.published)
  }

  /** Nor, unless it is the root's response itself, mark the root's request accepted. */
  predicate Steady(s: State, s': State) {
    && Calm(s, s')
    && (s.turn.Some? ==> s'.turn.value.requestAccepted == s.turn.value.requestAccepted)
  }

  lemma SteadyTwice(s: State, s1: State, s2: State)
    requires Steady(s, s1) && Steady(s1, s2)
    ensures Steady(s, s2)
  {}

  lemma CalmThenSteady(s: State, s1: State, s2: State)
    requires Calm(s, s1) && Steady(s1, s2)
    ensures Calm(s, s2)
  {}

  /** A change of the turn and the native-busy slot alone is steady if the turn keeps its
      group, its identity facts and its canonical id. */
  lemma ReworkSteady(s: State, s': State)
    requires s.turn.Some? && s'.turn.Some?
    requires s' == s.(turn := s'.turn, nativeActive := s'.nativeActive)
    requires var t := s.turn.value;
             var t' := s'.turn.value;
             && t'.epoch == t.epoch && t'.requestAccepted == t.requestAccepted
             && t'.accepted == t.accepted && t'.rpc == t.rpc
             && (t.requestAccepted ==> t'.pendingCompletions == t.pendingCompletions)
             && (t.canonical.Some? ==> t'.canonical == t.canonical)
             && (t.completed ==> t'.completed)
             && (IdentityOk(t) ==> IdentityOk(t'))
    ensures Steady(s, s')
  {}

  lemma ReportConflictSteady(s: State, reason: Reason)
    requires s.turn.Some?
    ensures Steady(s, ReportConflict(s, reason))
  {
    ReworkSteady(s, ReportConflict(s, reason));
  }

  lemma CompleteSingleSteady(s: State, rec: NativeTurn, index: Option<nat>)
    requires s.turn.Some?
    ensures Steady(s, CompleteSingle(s, rec, index))
  {
    ReworkSteady(s, CompleteSingle(s, rec, index));
  }

  lemma FenceTurnSteady(s: State)
    requires s.turn.Some?
    ensures Steady(s, FenceTurn(s))
  {}

  lemma SettleSteeredSteady(s: State, rec: NativeTurn)
    requires s.turn.Some?
    ensures Steady(s, SettleSteered(s, rec))
  {
    if !s.turn.value.completed && VerifyGroup(rec, SentIds(s.turn.value.accepted)).Refused? {
      ReportConflictSteady(s, VerifyGroup(rec, SentIds(s.turn.value.accepted)).reason);
    } else {
      ReworkSteady(s, SettleSteered(s, rec));
    }
  }

  lemma SingleLookupSteady(s: State, keepPending: bool)
    requires s.turn.Some?
    ensures Steady(s, StartSingleLookup(s, keepPending))
  {
    if s.turn.value.lookup == NoLookup && !s.turn.value.completed && s.turn.value.clientId.None? {
      ReportConflictSteady(s, NoClientId);
    } else {
      ReworkSteady(s, StartSingleLookup(s, keepPending));
    }
  }

  lemma GroupLookupSteady(s: State)
    requires s.turn.Some?
    ensures Steady(s, StartGroupLookup(s))
  {
    ReworkSteady(s, StartGroupLookup(s));
  }

  lemma RouteBufferedSteady(s: State, rec: NativeTurn)
    requires s.turn.Some?
    ensures Steady(s, RouteBuffered(s, rec))
  {
    SettleSteeredSteady(s, rec);
    GroupLookupSteady(s);
  }

  lemma ResumeBufferedSteady(s: State)
    ensures Steady(s, ResumeBuffered(s))
  {
    if CanResume(s) {
      RouteBufferedSteady(s, s.turn.value.terminal.value);
    }
  }

  lemma TryAdmitSteerSteady(s: State)
    ensures Steady(s, TryAdmitSteer(s))
  {}

  // ---- Notifications -----------------------------------------------------------

  lemma PublishBusySteady(s: State)
    ensures Steady(s, PublishBusy(s))
  {
    assert (s.published + [true])[..|s.published|] == s.published;
  }

  lemma ServerStartedSteady(s: State)
    requires s.turn.Some?
    ensures var s2 := With(s, s.turn.value.(serverStarted := true)); Steady(s, s2) && Steady(s, TryAdmitSteer(s2))
  {
    var s2 := With(s, s.turn.value.(serverStarted := true));
    ReworkSteady(s, s2);
    TryAdmitSteerSteady(s2);
    SteadyTwice(s, s2, TryAdmitSteer(s2));
  }

  lemma AfterStartedSteady(s: State, id: Id, note: Note)
    requires s.turn.Some? && note.Started?
    ensures Steady(s, AfterStarted(s, id, note))
  {
    var t := s.turn.value;
    if t.nativeId == Some(id) {
      ServerStartedSteady(s);
    } else if !t.requestAccepted && t.kind == StartRequest {
      ReworkSteady(s, With(s, t.(pendingNotes := t.pendingNotes + [note])));
    } else {
      PublishBusySteady(s);
    }
  }

  lemma ProveStartedSteady(s: State, id: Id, exact: bool)
    requires s.turn.Some? && (exact ==> !Contradicts(s.turn.value, id))
    ensures Steady(s, With(s, ProveStarted(s.turn.value, id, exact)))
  {
    ReworkSteady(s, With(s, ProveStarted(s.turn.value, id, exact)));
  }

  lemma OnStartedForSteady(s: State, id: Id, turnParam: Option<Id>, rec: NativeTurn)
    requires s.turn.Some?
    ensures Steady(s, OnStartedFor(s, s.turn.value, id, turnParam, rec))
  {
    var t := s.turn.value;
    var exact := |ExactFor(rec, t.clientId)| == 1;
    if exact && Contradicts(t, id) {
      assert With(s, t) == s;
      FenceTurnSteady(s);
    } else {
      var s1 := With(s, ProveStarted(t, id, exact));
      ProveStartedSteady(s, id, exact);
      AfterStartedSteady(s1, id, Started(turnParam, rec));
      SteadyTwice(s, s1, AfterStarted(s1, id, Started(turnParam, rec)));
    }
  }

  lemma NativeSlotSteady(s: State, native: Option<Id>)
    ensures Steady(s, s.(nativeActive := native))
  {}

  lemma OnStartedSteady(s: State, turnParam: Option<Id>, rec: NativeTurn, replayed: bool)
    ensures Steady(s, OnStarted(s, turnParam, rec, replayed))
  {
    var id := NoteId(turnParam, rec);
    var native := if id.Some? && (!replayed || s.nativeActive.None? || s.nativeActive == id) then id else s.nativeActive;
    var s1 := s.(nativeActive := native);
    NativeSlotSteady(s, native);
    if s1.turn.Some? && id.Some? {
      OnStartedForSteady(s1, id.value, turnParam, rec);
      SteadyTwice(s, s1, OnStartedFor(s1, s1.turn.value, id.value, turnParam, rec));
    } else {
      PublishBusySteady(s1);
      SteadyTwice(s, s1, PublishBusy(s1));
    }
  }

  lemma OnGroupCompletedSteady(s: State, id: Option<Id>, rec: NativeTurn)
    requires s.turn.Some?
    ensures Steady(s, OnGroupCompleted(s, s.turn.value, id, rec))
  {
    var t := s.turn.value;
    var s1 := With(s, HoldCompletion(t, id, rec));
    ReworkSteady(s, s1);
    if !Steering(s, t) && !t.startPending {
      if t.canonical.Some? && id == t.canonical {
        SettleSteeredSteady(s1, rec);
        SteadyTwice(s, s1, SettleSteered(s1, rec));
      } else {
        GroupLookupSteady(s1);
        SteadyTwice(s, s1, StartGroupLookup(s1));
      }
    }
  }

  lemma UpgradeByCompletionSteady(s: State, id: Id, rec: NativeTurn)
    requires s.turn.Some?
    ensures Steady(s, UpgradeByCompletion(s, id, rec))
  {
    if Contradicts(s.turn.value, id) {
      FenceTurnSteady(s);
    } else {
      ReworkSteady(s, UpgradeByCompletion(s, id, rec));
    }
  }

  lemma BufferCompletionSteady(s: State, rec: NativeTurn)
    requires s.turn.Some? && !s.turn.value.requestAccepted
    ensures Steady(s, With(s, s.turn.value.(pendingCompletions := s.turn.value.pendingCompletions + [rec])))
  {
    ReworkSteady(s, With(s, s.turn.value.(pendingCompletions := s.turn.value.pendingCompletions + [rec])));
  }

  lemma OnSingleCompletedSteady(s: State, id: Option<Id>, rec: NativeTurn)
    requires s.turn.Some?
    ensures Steady(s, OnSingleCompleted(s, s.turn.value, id, rec))
  {
    var t := s.turn.value;
    assert With(s, t) == s;
    var exact := ExactFor(rec, t.clientId);
    if |exact| == 1 && UpgradesToProof(t, id) {
      UpgradeByCompletionSteady(s, id.value, rec);
    } else if |exact| == 1 {
      CompleteSingleSteady(s, rec, Some(exact[0]));
    } else if !t.requestAccepted {
      BufferCompletionSteady(s, rec);
    } else if t.nativeId.Some? && id == t.nativeId && t.kind == StartRequest {
      CompleteSingleSteady(s, rec, None);
    } else {
      SingleLookupSteady(s, false);
    }
  }

  lemma IdleCompletionSteady(s: State)
    requires s.turn.None?
    ensures var s2 := SettleState(s);
            Steady(s, s2) && Steady(s, KickDrain(s2))
  {
    PublishBusySteady(s);
  }

  lemma OnCompletedSteady(s: State, turnParam: Option<Id>, rec: NativeTurn)
    ensures Steady(s, OnCompleted(s, turnParam, rec))
  {
    hide Steady, OnGroupCompleted, OnSingleCompleted, InGroupMode, SettleState, KickDrain;
    var id := NoteId(turnParam, rec);
    var s1 := ClearNative(s, id);
    NativeSlotSteady(s, s1.nativeActive);
    if s1.turn.None? {
      IdleCompletionSteady(s1);
    } else if InGroupMode(s1, s1.turn.value) {
      OnGroupCompletedSteady(s1, id, rec);
    } else {
      OnSingleCompletedSteady(s1, id, rec);
    }
    SteadyTwice(s, s1, OnCompleted(s, turnParam, rec));
  }

  lemma TextSteady(s: State, seen: set<Id>, agent: string, final: Answer)
    requires s.turn.Some?
    ensures Steady(s, With(s, s.turn.value.(seenItems := seen, allAgentText := agent, finalText := final)))
  {
    ReworkSteady(s, With(s, s.turn.value.(seenItems := seen, allAgentText := agent, finalText := final)));
  }

  lemma HoldNoteSteady(s: State, note: Note)
    requires s.turn.Some? && !note.Completed?
    ensures Steady(s, With(s, s.turn.value.(pendingNotes := s.turn.value.pendingNotes + [note])))
  {
    ReworkSteady(s, With(s, s.turn.value.(pendingNotes := s.turn.value.pendingNotes + [note])));
  }

  lemma OnProgressSteady(s: State, note: Note)
    requires !note.Completed?
    ensures Steady(s, OnProgress(s, note))
  {
    if s.turn.Some? {
      var t := s.turn.value;
      if !t.requestAccepted {
        HoldNoteSteady(s, note);
      } else {
        TextSteady(s, Heard(t, note).0, Heard(t, note).1, Heard(t, note).2);
      }
    }
  }

  lemma OnNoteSteady(s: State, note: Note, replayed: bool)
    ensures Steady(s, OnNote(s, note, replayed))
  {
    match note {
      case Started(turnParam, rec) => OnStartedSteady(s, turnParam, rec, replayed);
      case Completed(turnParam, rec) => OnCompletedSteady(s, turnParam, rec);
      case TokenUsage(_, _) =>
      case _ => OnProgressSteady(s, note);
    }
  }

  // ---- The root request ------------------------------------------------------------

  lemma {:induction false} ReplaySteady(s: State, notes: seq<Note>)
    ensures Steady(s, Replay(s, notes))
    decreases |notes|
  {
    if notes != [] && s.turn.Some? {
      var note := notes[0];
      var id := if note.Started? || note.Completed? then NoteId(note.turnParam, note.rec) else note.turnParam;
      OnNoteSteady(s, note, true);
      var s1 := if id == s.turn.value.nativeId then OnNote(s, note, true) else s;
      ReplaySteady(s1, notes[1..]);
      SteadyTwice(s, s1, Replay(s1, notes[1..]));
    }
  }

  lemma ReplayNotesSteady(s: State)
    ensures Steady(s, ReplayNotes(s))
  {
    if s.turn.Some? {
      var s1 := With(s, s.turn.value.(pendingNotes := []));
      ReplaySteady(s1, s.turn.value.pendingNotes);
      SteadyTwice(s, s1, ReplayNotes(s));
    }
  }

  lemma SettleFromSteady(s: State, pendings: seq<NativeTurn>)
    requires s.turn.Some?
    ensures Steady(s, SettleFrom(s, pendings))
  {
    var t := s.turn.value;
    if pendings != [] && !t.completed {
      var exact := ExactPendings(pendings, t.clientId);
      var native := NativePendings(pendings, t.nativeId);
      if |exact| == 1 { CompleteSingleSteady(s, exact[0].0, Some(exact[0].1)); }
      else if |exact| > 1 || |native| > 1 { ReportConflictSteady(s, ManyPreResponse); }
      else if |native| == 1 && t.kind != SteerRequest { CompleteSingleSteady(s, native[0], None); }
      else { SingleLookupSteady(s, |native| != 1); }
    }
  }

  lemma SettlePendingsSteady(s: State)
    ensures Steady(s, SettlePendings(s))
  {
    if s.turn.Some? {
      var s1 := With(s, s.turn.value.(pendingCompletions := []));
      SettleFromSteady(s1, s.turn.value.pendingCompletions);
      SteadyTwice(s, s1, SettlePendings(s));
    }
  }

  lemma SettleAfterResponseSteady(s: State)
    ensures Steady(s, SettleAfterResponse(s))
  {
    ResumeBufferedSteady(s);
    var s1 := ResumeBuffered(s);
    if SettlesBuffered(s) && s1.turn.Some? {
      SettleSteeredSteady(s1, s.turn.value.terminal.value);
      SteadyTwice(s, s1, SettleAfterResponse(s));
    }
  }

  lemma AfterAcceptSteady(s: State)
    ensures Steady(s, AfterAccept(s))
  {
    var s1 := SettleAfterResponse(s);
    var s2 := ReplayNotes(s1);
    var s3 := SettlePendings(s2);
    SettleAfterResponseSteady(s);
    ReplayNotesSteady(s1);
    SteadyTwice(s, s1, s2);
    SettlePendingsSteady(s2);
    SteadyTwice(s, s2, s3);
    TryAdmitSteerSteady(s3);
    SteadyTwice(s, s3, TryAdmitSteer(s3));
  }

  lemma AcceptRootCalm(s: State, respId: Option<Id>)
    requires Identified(s) && s.pc == AwaitResponse && s.turn.Some?
    requires !ContradictsProof(s.turn.value, respId)
    ensures Calm(s, AcceptRoot(s, respId))
  {}

  lemma FenceRootSteady(s: State)
    requires s.turn.Some? && s.pc == AwaitResponse
    ensures Steady(s, FenceRoot(s))
  {}

  lemma OnRootResponseCalm(s: State, responseId: Option<Id>)
    requires Identified(s)
    ensures Calm(s, OnRootResponse(s, responseId))
  {
    if s.pc == AwaitResponse && s.turn.Some? {
      var respId := if responseId.Some? then responseId else s.turn.value.nativeId;
      if ContradictsProof(s.turn.value, respId) {
        FenceRootSteady(s);
      } else {
        AcceptRootCalm(s, respId);
        AfterAcceptSteady(AcceptRoot(s, respId));
        CalmThenSteady(s, AcceptRoot(s, respId), OnRootResponse(s, responseId));
      }
    }
  }

  // ---- Lookups, steers and root errors -----------------------------------------------

  lemma FinishLookupSteady(s: State)
    requires s.turn.Some? && s.turn.value.completed
    ensures Steady(s, FinishLookup(s))
  {
    ReworkSteady(s, FinishLookup(s));
  }

  lemma FinishWithConflictSteady(s: State, reason: Reason)
    requires s.turn.Some?
    ensures Steady(s, ReportConflict(FinishLookup(s), reason))
  {
    ReworkSteady(s, ReportConflict(FinishLookup(s), reason));
  }

  lemma FinishWithMatchSteady(s: State, rec: NativeTurn, index: nat)
    requires s.turn.Some? && rec.terminal
    ensures Steady(s, CompleteSingle(FinishLookup(s), rec, Some(index)))
  {
    ReworkSteady(s, CompleteSingle(FinishLookup(s), rec, Some(index)));
  }

  lemma {:induction false} SingleMatchesAreTerminal(candidates: seq<NativeTurn>, cid: Id)
    ensures forall i | 0 <= i < |SingleMatches(candidates, cid)| :: SingleMatches(candidates, cid)[i].0.terminal
    decreases |candidates|
  {
    if candidates != [] { SingleMatchesAreTerminal(candidates[1..], cid); }
  }

  lemma OnSingleScannedSteady(s: State, candidates: seq<NativeTurn>, failed: bool, expired: bool)
    requires s.turn.Some? && s.turn.value.lookup.SingleLookup? && s.turn.value.clientId.Some?
    ensures Steady(s, OnSingleScanned(s, candidates, failed, expired))
  {
    var cid := s.turn.value.clientId.value;
    var matches := SingleMatches(candidates, cid);
    SingleMatchesAreTerminal(candidates, cid);
    if s.turn.value.completed { FinishLookupSteady(s); }
    if |matches| == 1 { FinishWithMatchSteady(s, matches[0].0, matches[0].1); }
    forall reason ensures Steady(s, ReportConflict(FinishLookup(s), reason)) {
      FinishWithConflictSteady(s, reason);
    }
  }

  /** Only the turn and the native-busy slot differ. */
  predicate SameLedger(s: State, s': State) {
    s' == s.(turn := s'.turn, nativeActive := s'.nativeActive)
  }

  /** The group was looked up and settled from its one full match, which re-keys it. */
  predicate SettledByHistory(s: State, s': State) {
    && SameLedger(s, s')
    && s.turn.Some? && s'.turn.Some?
    && s.turn.value.lookup == GroupLookup && !s.turn.value.completed
    && s'.turn.value.completed
    && s'.turn.value.epoch == s.turn.value.epoch
    && s'.turn.value.accepted == s.turn.value.accepted && s'.turn.value.rpc == s.turn.value.rpc
    && s'.turn.value.requestAccepted == s.turn.value.requestAccepted
    && s'.turn.value.pendingCompletions == s.turn.value.pendingCompletions
    && s'.turn.value.terminal.Some?
    && s'.turn.value.canonical == s'.turn.value.terminal.value.id == s'.turn.value.nativeId
  }

  lemma AdoptMatchSameLedger(s: State, rec: NativeTurn, lastIndex: nat)
    requires s.turn.Some?
    ensures SameLedger(s, AdoptMatch(s, rec, lastIndex))
  {
    var s1 := if rec.id.Some? then ClearNative(ClearNative(s, s.turn.value.canonical), rec.id) else s;
    assert SameLedger(s, s1);
  }

  lemma AdoptMatchIdentified(s: State, rec: NativeTurn, lastIndex: nat)
    requires s.turn.Some? && Identified(s)
    ensures Identified(AdoptMatch(FinishLookup(s), rec, lastIndex))
  {
    hide NoCompletions, Rebuild;
    var s1 := FinishLookup(s);
    var s2 := if rec.id.Some? then ClearNative(ClearNative(s1, s.turn.value.canonical), rec.id) else s1;
    assert s2 == s1.(nativeActive := s2.nativeActive);
  }

  lemma AdoptNamelessSteady(s: State, rec: NativeTurn, lastIndex: nat)
    requires s.turn.Some? && rec.id.None?
    ensures Steady(s, AdoptMatch(FinishLookup(s), rec, lastIndex))
  {
    ReworkSteady(s, AdoptMatch(FinishLookup(s), rec, lastIndex));
  }

  lemma AdoptNamedSettles(s: State, rec: NativeTurn, lastIndex: nat)
    requires s.turn.Some? && s.turn.value.lookup == GroupLookup && !s.turn.value.completed && rec.id.Some?
    ensures SettledByHistory(s, AdoptMatch(FinishLookup(s), rec, lastIndex))
  {
    AdoptMatchSameLedger(FinishLookup(s), rec, lastIndex);
  }

  lemma ResolveGroupKeepsIdentity(s: State, matches: seq<(NativeTurn, nat)>)
    requires s.turn.Some? && s.turn.value.lookup == GroupLookup && !s.turn.value.completed
    ensures var s' := ResolveGroup(FinishLookup(s), matches);
            && (Steady(s, s') || SettledByHistory(s, s'))
            && (Identified(s) ==> Identified(s'))
  {
    if |matches| == 1 {
      if Identified(s) { AdoptMatchIdentified(s, matches[0].0, matches[0].1); }
      if matches[0].0.id.None? {
        AdoptNamelessSteady(s, matches[0].0, matches[0].1);
      } else {
        AdoptNamedSettles(s, matches[0].0, matches[0].1);
      }
    } else {
      FinishWithConflictSteady(s, if |matches| == 0 then NoFullGroup else ManyFullGroups);
    }
  }

  lemma OnGroupScannedSteady(s: State, candidates: seq<NativeTurn>, failed: bool)
    requires s.turn.Some? && s.turn.value.lookup == GroupLookup
    ensures var s' := OnGroupScanned(s, candidates, failed);
            && (Steady(s, s') || SettledByHistory(s, s'))
            && (Identified(s) ==> Identified(s'))
            && (s.turn.value.completed ==> Steady(s, s'))
  {
    if s.turn.value.completed { FinishLookupSteady(s); }
    FinishWithConflictSteady(s, GroupLookupFailed);
    if !s.turn.value.completed {
      ResolveGroupKeepsIdentity(s, GroupMatches(candidates, SentIds(s.turn.value.accepted)));
    }
  }

  lemma OnHistoryScannedSteady(s: State, candidates: seq<NativeTurn>, failed: bool, expired: bool)
    ensures var s' := OnHistoryScanned(s, candidates, failed, expired);
            && (Steady(s, s') || SettledByHistory(s, s'))
            && (Identified(s) ==> Identified(s'))
            && (s.turn.Some? && s.turn.value.completed ==> Steady(s, s'))
  {
    if s.turn.Some? {
      if s.turn.value.lookup.SingleLookup? && s.turn.value.clientId.Some? {
        OnSingleScannedSteady(s, candidates, failed, expired);
      } else if s.turn.value.lookup == GroupLookup {
        OnGroupScannedSteady(s, candidates, failed);
      }
    }
  }

  lemma FallBackSteady(s: State)
    requires s.turn.Some?
    ensures Steady(s, FallBack(s))
  {}

  lemma RetrySteady(s: State, r: RootRpc)
    requires s.turn.Some? && (r.expected.Some? ==> s.turn.value.rpc.expected.Some?)
    ensures Steady(s, With(s.(cleanUnsupported := true), s.turn.value.(rpc := r)))
  {}

  lemma RootFailsSteady(s: State, message: string)
    requires s.turn.Some? && s.pc == AwaitResponse
    ensures Steady(s, FenceTurn(s).(pc := Returned)) && Steady(s, s.(pc := Threw(message)))
  {}

  lemma OnRootErrorSteady(s: State, failure: Failure)
    ensures Steady(s, OnRootError(s, failure))
  {
    if s.pc == AwaitResponse && s.turn.Some? {
      var r := s.turn.value.rpc;
      var s' := OnRootError(s, failure);
      if s' == FallBack(s) {
        FallBackSteady(s);
      } else if s'.pc == s.pc {
        RetrySteady(s, r.(capabilityRetried := true, structured := false));
      } else {
        RootFailsSteady(s, failure.message);
      }
    }
  }

  /** The identity facts of a turn and its canonical id survive, whatever happens to the queue. */
  predicate KeepsIdentity(s: State, s': State) {
    && (Identified(s) ==> Identified(s'))
    && (s.turn.Some? && s'.turn.Some? && s'.turn.value.epoch == s.turn.value.epoch
        && s.turn.value.canonical.Some?
        ==> s'.turn.value.canonical == s.turn.value.canonical)
    && (s.turn.Some? && s'.turn.Some? && s'.turn.value.epoch == s.turn.value.epoch && s.turn.value.completed
        ==> s'.turn.value.completed)
  }

  lemma AfterJoinSteady(s: State, epoch: nat)
    ensures Steady(s, AfterJoin(s, epoch))
  {
    ResumeBufferedSteady(s);
    TryAdmitSteerSteady(s);
  }

  lemma JoinGroupKeepsIdentity(s: State, rpc: SteerRpc)
    requires |s.queue| > 0
    ensures KeepsIdentity(s, JoinGroup(s, rpc))
    ensures JoinGroup(s, rpc).turn.Some? == s.turn.Some?
    ensures s.turn.Some? ==> JoinGroup(s, rpc).turn.value.epoch == s.turn.value.epoch
  {}

  lemma FenceSteerKeepsIdentity(s: State, epoch: nat)
    ensures KeepsIdentity(s, FenceSteer(s.(steer := None), epoch))
  {
    if s.turn.Some? { FenceTurnSteady(s.(steer := None)); }
  }

  lemma KeepsIdentityThen(s: State, s1: State, s2: State)
    requires KeepsIdentity(s, s1) && Steady(s1, s2)
    requires s1.turn.Some? == s.turn.Some? && (s.turn.Some? ==> s1.turn.value.epoch == s.turn.value.epoch)
    ensures s.turn.Some? ==> KeepsIdentity(s, s2)
    ensures Identified(s) ==> Identified(s2)
  {}

  lemma AfterJoinNoTurn(s: State, epoch: nat)
    requires s.turn.None?
    ensures AfterJoin(s, epoch) == s
  {}

  lemma OnSteerResponseKeepsIdentity(s: State, steeredId: Option<Id>)
    ensures KeepsIdentity(s, OnSteerResponse(s, steeredId))
  {
    if SteerAccepted(s, steeredId) {
      var s1 := JoinGroup(s, s.steer.value);
      JoinGroupKeepsIdentity(s, s.steer.value);
      AfterJoinSteady(s1, s.steer.value.epoch);
      KeepsIdentityThen(s, s1, OnSteerResponse(s, steeredId));
      if s.turn.None? { AfterJoinNoTurn(s1, s.steer.value.epoch); }
    } else if s.steer.Some? {
      FenceSteerKeepsIdentity(s, s.steer.value.epoch);
    }
  }

  lemma RouteHeldSteady(s: State)
    requires s.turn.Some?
    ensures Steady(s, RouteHeld(s))
  {
    if s.turn.value.terminal.Some? {
      RouteBufferedSteady(s, s.turn.value.terminal.value);
    }
  }

  lemma CloseSteeringKeepsIdentity(s: State)
    requires s.turn.Some?
    ensures KeepsIdentity(s, CloseSteering(s))
  {}

  lemma OnSteerErrorKeepsIdentity(s: State, refusal: Failure)
    ensures KeepsIdentity(s, OnSteerError(s, refusal))
  {
    if s.steer.Some? {
      if !(refusal.rpc && refusal.definite) {
        FenceSteerKeepsIdentity(s, s.steer.value.epoch);
      } else if s.turn.Some? && s.turn.value.epoch == s.steer.value.epoch {
        CloseSteeringKeepsIdentity(s);
        RouteHeldSteady(CloseSteering(s));
        KeepsIdentityThen(s, CloseSteering(s), RouteHeld(CloseSteering(s)));
      }
    }
  }

  lemma DrainLoopKeepsIdentity(s: State)
    ensures DrainLoop(s).turn == s.turn && KeepsIdentity(s, DrainLoop(s))
  {}

  lemma KickKeepsIdentity(s: State)
    ensures KeepsIdentity(s, KickDrain(s)) && KeepsIdentity(s, EndOfBody(s))
    ensures KickDrain(s).turn == s.turn && EndOfBody(s).turn == s.turn
  {
    hide IdentityOk, GateCloses;
    DrainLoopKeepsIdentity(s);
    var s1 := if |s.queue| == 0 || GateCloses(s) then SettleState(s) else s;
    DrainLoopKeepsIdentity(s1);
  }

  lemma ReceiveKeepsIdentity(s: State, content: string, sidecar: Option<Sidecar>, replyId: Option<Id>, steerable: bool)
    ensures KeepsIdentity(s, KickDrain(TryAdmitSteer(Receive(s, content, sidecar, replyId, steerable))))
    ensures KeepsIdentity(s, KickDrain(Receive(s, content, sidecar, replyId, steerable)))
  {
    var s1 := Receive(s, content, sidecar, replyId, steerable);
    KickKeepsIdentity(s1);
    KickKeepsIdentity(TryAdmitSteer(s1));
  }

  lemma {:induction false} EmitGroupFrame(s: State, t: Turn, from: nat)
    requires from <= |t.accepted|
    ensures EmitGroup(s, t, from) == s.(finals := EmitGroup(s, t, from).finals, usage := EmitGroup(s, t, from).usage)
    decreases |t.accepted| - from
  {
    if from < |t.accepted| {
      var isReal := from + 1 == |t.accepted|;
      EmitGroupFrame(EmitFinal(s, t.accepted[from].input, t.nativeId,
                               if isReal then DeliveredText(t) else Said(""), !isReal), t, from + 1);
    }
  }

  lemma OnTurnDoneKeepsIdentity(s: State)
    ensures KeepsIdentity(s, OnTurnDone(s))
  {
    if s.turn.Some? { EmitGroupFrame(s, s.turn.value, 0); }
  }

  lemma AnswerFailureKeepsIdentity(s: State, input: Input, message: string)
    ensures KeepsIdentity(s, AnswerFailure(s, input, message))
  {
    if !s.fenced { KickKeepsIdentity(FailureFinal(s, input, message)); }
  }

  lemma OnDrainResumedKeepsIdentity(s: State)
    ensures KeepsIdentity(s, OnDrainResumed(s))
  {
    if s.pc == Returned {
      KickKeepsIdentity(s);
    } else if s.pc.Threw? && s.turn.Some? && |s.turn.value.accepted| > 0 {
      AnswerFailureKeepsIdentity(s, s.turn.value.accepted[0].input, s.pc.message);
    }
  }

  /** They keep the turn, drop it, or open a fresh one; only the input line receives. */
  predicate LoopFrame(s: State, e: Event, s': State) {
    && (s'.turn == s.turn || s'.turn.None? || (e.ThreadReady? && !s'.turn.value.requestAccepted))
    && (!e.Framed? && !e.PlainLine? ==> s'.inbound == s.inbound)
    && (s.overlapped ==> s'.overlapped)
  }

  lemma ReceiveFrame(s: State, e: Event)
    requires e.Framed? || e.PlainLine?
    ensures LoopFrame(s, e, Step(s, e))
  {}

  lemma EndOfBodyFrame(s: State)
    ensures var s' := EndOfBody(s); s'.turn == s.turn && s'.inbound == s.inbound && s'.overlapped == s.overlapped
  {}

  lemma AnswerFailureFrame(s: State, input: Input, message: string)
    ensures var s' := AnswerFailure(s, input, message);
            s'.turn.None? && s'.inbound == s.inbound && s'.overlapped == s.overlapped
  {
    if !s.fenced { EndOfBodyFrame(FailureFinal(s, input, message)); }
  }

  lemma DrainFrame(s: State)
    ensures LoopFrame(s, DrainResumed, OnDrainResumed(s))
  {
    if s.pc == Returned {
      EndOfBodyFrame(s);
    } else if s.pc.Threw? && s.turn.Some? && |s.turn.value.accepted| > 0 {
      AnswerFailureFrame(s, s.turn.value.accepted[0].input, s.pc.message);
    }
  }

  lemma LoopEventFrame(s: State, e: Event)
    requires IsLoopEvent(e)
    ensures LoopFrame(s, e, Step(s, e))
  {
    match e {
      case Framed(_, _, _, _) => ReceiveFrame(s, e);
      case PlainLine(_) => ReceiveFrame(s, e);
      case ThreadFailed(message) => if s.pc.Dequeued? { AnswerFailureFrame(s, s.pc.input, message); }
      case DrainResumed => DrainFrame(s);
      case TurnDone => if s.turn.Some? { EmitGroupFrame(s, s.turn.value, 0); }
      case _ =>
    }
  }

  lemma BeginTurnKeepsIdentity(s: State, input: Input)
    requires Identified(s)
    ensures KeepsIdentity(s, BeginTurn(s, input))
  {}

  lemma CalmKeepsIdentity(s: State, s': State)
    requires Calm(s, s')
    ensures KeepsIdentity(s, s')
  {}

  /** Every step of every run: identity facts hold, and an open turn's canonical id is
      write-once; only a history settlement re-keys it, in the step that completes it. */
  lemma StepKeepsIdentity(s: State, e: Event)
    requires Identified(s)
    ensures Identified(Step(s, e))
    ensures KeepsIdentity(s, Step(s, e)) || SettledByHistory(s, Step(s, e))
  {
    if IsLoopEvent(e) {
      LoopKeepsIdentity(s, e);
    } else {
      hide Calm, Identified, SettledByHistory;
      var s' := Step(s, e);
      match e {
        case RootResponse(responseId) => OnRootResponseCalm(s, responseId); CalmKeepsIdentity(s, s');
        case RootError(failure) => OnRootErrorSteady(s, failure); CalmKeepsIdentity(s, s');
        case SteerResponse(steeredId) => OnSteerResponseKeepsIdentity(s, steeredId);
        case SteerError(refusal) => OnSteerErrorKeepsIdentity(s, refusal);
        case Notify(note) => OnNoteSteady(s, note, false); CalmKeepsIdentity(s, s');
        case HistoryScanned(candidates, failed, expired) =>
          OnHistoryScannedSteady(s, candidates, failed, expired);
          if Steady(s, s') { CalmKeepsIdentity(s, s'); }
      }
    }
  }

  lemma LoopKeepsIdentity(s: State, e: Event)
    requires Identified(s) && IsLoopEvent(e)
    ensures Identified(Step(s, e)) && KeepsIdentity(s, Step(s, e))
  {
    match e {
      case Framed(content, sidecar, replyId, steerable) => ReceiveKeepsIdentity(s, content, sidecar, replyId, steerable);
      case PlainLine(line) => ReceiveKeepsIdentity(s, line, None, None, false);
      case ThreadReady => if s.pc.Dequeued? { BeginTurnKeepsIdentity(s, s.pc.input); }
      case ThreadFailed(message) => if s.pc.Dequeued? { AnswerFailureKeepsIdentity(s, s.pc.input, message); }
      case TurnDone => OnTurnDoneKeepsIdentity(s);
      case DrainResumed => OnDrainResumedKeepsIdentity(s);
      case IdleTimerFired =>
      case ControlReaccepted =>
    }
  }

  // ---- Buffered completions ------------------------------------------------------------

  /** Between events, completions are buffered only while the root's response is out. */
  predicate Rested(s: State) {
    s.turn.Some? && s.turn.value.requestAccepted ==> s.turn.value.pendingCompletions == []
  }

  lemma SteadyRests(s: State, s': State)
    requires Steady(s, s') && Rested(s)
    ensures Rested(s')
  {}

  lemma AfterAcceptRests(s: State)
    requires s.turn.Some? && s.turn.value.requestAccepted
    ensures Rested(AfterAccept(s))
  {
    var s1 := SettleAfterResponse(s);
    var s2 := ReplayNotes(s1);
    SettleAfterResponseSteady(s);
    ReplayNotesSteady(s1);
    var s3 := With(s2, s2.turn.value.(pendingCompletions := []));
    SettleFromSteady(s3, s2.turn.value.pendingCompletions);
    TryAdmitSteerSteady(SettlePendings(s2));
  }

  lemma OnRootResponseRests(s: State, responseId: Option<Id>)
    requires Identified(s) && Rested(s)
    ensures Rested(OnRootResponse(s, responseId))
  {
    hide AfterAccept, NoCompletions;
    if s.pc == AwaitResponse && s.turn.Some? {
      var respId := if responseId.Some? then responseId else s.turn.value.nativeId;
      if !ContradictsProof(s.turn.value, respId) {
        AfterAcceptRests(AcceptRoot(s, respId));
      }
    }
  }

  lemma JoinRests(s: State, steeredId: Option<Id>)
    requires Rested(s)
    ensures Rested(OnSteerResponse(s, steeredId))
  {
    if SteerAccepted(s, steeredId) {
      var s1 := JoinGroup(s, s.steer.value);
      assert Rested(s1);
      AfterJoinSteady(s1, s.steer.value.epoch);
      SteadyRests(s1, OnSteerResponse(s, steeredId));
    }
  }

  lemma RefusalRests(s: State, refusal: Failure)
    requires Rested(s)
    ensures Rested(OnSteerError(s, refusal))
  {
    if s.turn.Some? {
      RouteHeldSteady(CloseSteering(s));
      SteadyRests(CloseSteering(s), RouteHeld(CloseSteering(s)));
    }
  }

  lemma StepRests(s: State, e: Event)
    requires Identified(s) && Rested(s)
    ensures Rested(Step(s, e))
  {
    if IsLoopEvent(e) {
      LoopEventFrame(s, e);
    } else {
      match e {
        case RootResponse(responseId) => OnRootResponseRests(s, responseId);
        case RootError(failure) => OnRootErrorSteady(s, failure);
        case SteerResponse(steeredId) => JoinRests(s, steeredId);
        case SteerError(refusal) => RefusalRests(s, refusal);
        case Notify(note) => OnNoteSteady(s, note, false);
        case HistoryScanned(candidates, failed, expired) => OnHistoryScannedSteady(s, candidates, failed, expired);
      }
    }
  }
}
